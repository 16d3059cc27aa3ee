/** The state machine that schedules a graph and executes its runs one after the other. */
module ExecutionManager {
  import opened Options
  import opened QueryNodes
  import opened SchedulingModel
  import opened ExternalLinks
  import opened NodeScheduler
  import opened MemoryManager
  import opened BlockTables
  import opened BlockStore
  import opened MemoryPlan
  import opened StreamSizes
  import opened QueryManager
  import opened SetupConditions
  import opened AcceleratedNodes
  import opened NodeSetup
  import opened RunSetup
  import opened BlockRelease
  import opened RunResults
  import opened ExecutionPlan
  import opened BlockHistory
  import AccelerationConstants
  import IdManager

  /** Between runs, with the first `k` executed. */
  ghost predicate BetweenRuns(plan: Plan, runs: seq<Run>, k: nat, names: seq<string>, store: Store, sizes: Sizes)
    reads plan.g.nodes, store, store.pool, sizes
  {
    && k <= |runs| && Idle(plan, Executed(runs, k), store, sizes)
    && RunsPending(plan, runs, k) && PreviousFit(plan)
    && NamesOf(names, Executed(runs, k))
  }

  /** Run `k` is set up but not executed. */
  ghost predicate DuringRun(plan: Plan, recordSizes: RecordSizes, runs: seq<Run>, k: nat, names: seq<string>,
                            setup: Setup, store: Store, sizes: Sizes)
    reads plan.g.nodes, store, store.pool, sizes
  {
    && k < |runs| && AllInPlan(plan, runs[k].nodes) && (forall n :: n in runs[k].nodes ==> n in plan.g.nodes)
    && SetUp(plan, recordSizes, Executed(runs, k), runs[k].nodes, setup, store, sizes)
    && RunsPending(plan, runs, k + 1) && PreviousFit(plan)
    && NamesOf(names, Executed(runs, k) + Members(runs[k].nodes))
  }

  /** Once the runs before it have been executed, nothing in the plan stands in the way of setting up run `k`. */
  ghost predicate RunCanBeSetUp(plan: Plan, runs: seq<Run>, k: nat) {
    k < |runs| && AllInPlan(plan, runs[k].nodes) && CanSetUp(plan, Executed(runs, k), runs[k].nodes)
  }

  /** What stands in the way of setting up run `k`. */
  ghost predicate RunHasObstacle(plan: Plan, runs: seq<Run>, k: nat, status: SetupStatus) {
    && k < |runs| && AllInPlan(plan, runs[k].nodes)
    && Obstacle(plan, Executed(runs, k), runs[k].nodes, status)
  }

  /** The scheduler's promises for all runs. */
  ghost predicate IsSchedule(g: QueryGraph, libraries: Libraries, reuse: ReusePolicy, runs: seq<Run>, links: LinkMap) {
    ValidSchedule(g, libraries, runs) && LinksRecorded(g, reuse, HomesOf(runs), links)
  }

  function NodeNames(nodes: seq<QueryNode>): (names: seq<string>)
  {
    seq(|nodes|, i requires 0 <= i < |nodes| => nodes[i].name)
  }

  lemma NamesGrow(names: seq<string>, done: set<QueryNode>, nodes: seq<QueryNode>)
    requires NamesOf(names, done)
    ensures NamesOf(names + NodeNames(nodes), done + Members(nodes))
  {
    forall name ensures name in names + NodeNames(nodes) <==> IsNamed(done + Members(nodes), name) {
      assert IsNamed(done + Members(nodes), name) <==> IsNamed(done, name) || IsNamed(Members(nodes), name);
      if IsNamed(Members(nodes), name) {
        var n :| n in Members(nodes) && n.name == name;
        var i :| 0 <= i < |nodes| && nodes[i] == n;
        assert NodeNames(nodes)[i] == name;
      }
      if name in NodeNames(nodes) {
        var i :| 0 <= i < |nodes| && NodeNames(nodes)[i] == name;
        assert nodes[i] in Members(nodes);
      }
    }
  }

  /** Sets up run `k`. */
  method SetupRun(nodes: seq<QueryNode>, names: seq<string>, store: Store, sizes: Sizes, recordSizes: RecordSizes,
                  ghost plan: Plan, ghost runs: seq<Run>, ghost k: nat)
    returns (status: SetupStatus, setup: Setup)
    requires TopologicalOrder(plan.g, ScheduledNodes(runs)) && plan == PlanOf(plan.g, plan.reuse, runs)
    requires BetweenRuns(plan, runs, k, names, store, sizes) && k < |runs| && nodes == runs[k].nodes
    requires forall n :: n in nodes ==> n in plan.g.nodes
    modifies store`inputs, store`outputs, store`places, store.pool, sizes`inputs, sizes`outputs, nodes`nextNodes
    ensures status == AllSet <==> RunCanBeSetUp(plan, runs, k)
    ensures status != AllSet ==> RunHasObstacle(plan, runs, k, status)
    ensures status == AllSet ==>
              DuringRun(plan, recordSizes, runs, k, names + NodeNames(nodes), setup, store, sizes)
    ensures status == AllSet ==> StreamsNumbered(plan, nodes, setup.inputIds, setup.outputIds)
    ensures status == AllSet ==> Grown(old(store.places), store.places)
    ensures status == AllSet ==> SizesWait(plan, Executed(runs, k), old(sizes.inputs), sizes.inputs)
  {
    hide WellFormed, Idle, SetUp, StreamsNumbered, NextRun, InRunOrder, CanSetUp, Obstacle, RunSized, SizesWait;
    hide Extends;
    RunsFollow(plan.g, plan.reuse, runs, k);
    NamesGrow(names, Executed(runs, k), nodes);
    assert RunPending(plan, runs[k].nodes);
    ghost var before;
    status, setup, before :=
      SetupAccelerationNodesForExecution(nodes, store, sizes, recordSizes, plan, Executed(runs, k));
    forall j | k + 1 <= j < |runs| ensures RunPending(plan, runs[j].nodes) {
      assert old(RunPending(plan, runs[j].nodes));
      forall n | n in runs[j].nodes
        ensures InPlan(plan, n) && PreviousCut(plan, n) && OutputsLinked(plan, n, 0, n.nextNodes)
        ensures n !in nodes && n.nextNodes == old(n.nextNodes)
      {
        assert InPlan(plan, n);
        if n in nodes {
          RunsAreDisjoint(plan.g, runs, k, j, n);
        }
      }
    }
  }

  /** Clears run `k` away. */
  method ClearRun(names: seq<string>, links: LinkMap, store: Store, sizes: Sizes, ghost plan: Plan,
                  ghost runs: seq<Run>, ghost k: nat)
    requires TopologicalOrder(plan.g, ScheduledNodes(runs)) && plan == PlanOf(plan.g, plan.reuse, runs)
    requires k < |runs| && AllInPlan(plan, runs[k].nodes)
    requires InUse(plan, Executed(runs, k), runs[k].nodes, store, sizes)
    requires RunsPending(plan, runs, k + 1) && PreviousFit(plan)
    requires NamesOf(names, Executed(runs, k) + Members(runs[k].nodes))
    requires LinksOfRun(plan, runs[k].nodes, links)
    modifies store`inputs, store`outputs, store`places, store.pool, sizes`inputs, sizes`outputs
    ensures BetweenRuns(plan, runs, k + 1, names, store, sizes)
    ensures HandedOn(plan, runs[k].nodes, MemoryPlan.Waiting(plan, Executed(runs, k + 1)), old(Taken(store, sizes)),
                     Taken(store, sizes))
    ensures OneEach(old(store.places))
  {
    hide WellFormed, InUse, NextRun, InRunOrder, Idle, HandedOn;
    RunsFollow(plan.g, plan.reuse, runs, k);
    RunIsSegment(runs, k);
    FreeMemoryBlocks(names, links, store, sizes, plan, Executed(runs, k), runs[k].nodes);
  }

  /** Nothing is held, and there are no vectors. */
  ghost predicate Empty(store: Store, sizes: Sizes)
    reads store, store.pool, sizes
  {
    && Holds(store, iset{}) && store.inputs == map[] && store.outputs == map[]
    && sizes.inputs == map[] && sizes.outputs == map[]
  }

  lemma ExecutionStarts(plan: Plan, runs: seq<Run>, store: Store, sizes: Sizes)
    requires Empty(store, sizes) && RunsPending(plan, runs, 0) && PreviousFit(plan)
    ensures BetweenRuns(plan, runs, 0, [], store, sizes)
  {
  }

  datatype State = ScheduleState | SetupNodesState | ExecuteState

  /** Where the source throws, or reaches for what is not there. */
  datatype Error =
    | SchedulingFailed
    | ParametersMissing
    | StreamParametersMissing
    | MemorySpaceUnknown
    | SetupFailed(why: SetupStatus)
    | RunInvalid

  datatype Config = Config(libraries: Libraries, requiredMemorySpace: map<string, int>, reuse: ReusePolicy,
                           recordSizes: RecordSizes)

  /** One executed run: what was loaded, what the FPGA was told, and what it reported for which streams. */
  datatype Execution = Execution(nodes: seq<QueryNode>, bitstream: string, registerSpace: int,
                                 told: seq<AcceleratedNode>, inputIds: IdManager.IdMap, outputIds: IdManager.IdMap,
                                 resultSizes: seq<int>)

  /** The first `k` runs have been executed in their order, each on the bitstream of its modules. */
  ghost predicate InQueueOrder(config: Config, runs: seq<Run>, k: nat, log: seq<Execution>) {
    && |log| == k <= |runs|
    && forall i {:trigger log[i]} :: 0 <= i < k ==>
         log[i].nodes == runs[i].nodes && OnItsBitstream(config, runs[i], log[i].bitstream, log[i].registerSpace)
  }

  /** The bitstream is that of the modules of the run, with the register space configured for it. */
  ghost predicate OnItsBitstream(config: Config, run: Run, bitstream: string, registerSpace: int) {
    && run.modules in config.libraries.bitstreams && bitstream == config.libraries.bitstreams[run.modules]
    && bitstream in config.requiredMemorySpace && registerSpace == config.requiredMemorySpace[bitstream]
  }

  /**
   * The FPGA was told what the plan demands, every merge sort had room for its stream, and the counts that were
   * reported for the results were noted.
   */
  ghost predicate RunNoted(plan: Plan, recordSizes: RecordSizes, nodes: seq<QueryNode>, execution: Execution,
                           executed: Inventory)
    requires AllInPlan(plan, nodes)
  {
    && StreamsNumbered(plan, nodes, execution.inputIds, execution.outputIds)
    && (forall n :: n in execution.told ==> MergeSortFits(n))
    && RunTold(plan.g, recordSizes, nodes, execution.told, execution.inputIds, execution.outputIds, executed.places,
               executed.inputs)
    && CountsNoted(plan, recordSizes, nodes, execution.outputIds, execution.resultSizes, executed.outputs)
  }

  /** The executed runs could all be set up, and were executed as the plan demands. */
  ghost predicate RunsNoted(plan: Plan, recordSizes: RecordSizes, runs: seq<Run>, log: seq<Execution>,
                            snapshots: seq<Inventory>) {
    && |log| == |snapshots| <= |runs|
    && forall k {:trigger runs[k]} :: 0 <= k < |log| ==>
         RunCanBeSetUp(plan, runs, k) && RunNoted(plan, recordSizes, runs[k].nodes, log[k], snapshots[k])
  }

  /** What is known of a graph before it is scheduled. */
  ghost predicate CanSchedule(g: QueryGraph, roots: seq<QueryNode>)
    reads g.nodes
  {
    FilesMatch(g) && g == Snapshot(g.nodes) && IsFrontier(g, [], roots)
  }

  /**
   * The fields the states read and write, and what has happened so far: the runs, and where blocks and sizes were when
   * each had been executed.
   */
  datatype Control = Control(state: State, roots: seq<QueryNode>, queue: seq<Run>, allReuseLinks: LinkMap,
                             currentReuseLinks: LinkMap, names: seq<string>, setup: Setup, scheduled: bool,
                             runs: seq<Run>, log: seq<Execution>, snapshots: seq<Inventory>)

  /** Before the graph is scheduled. */
  ghost predicate Unscheduled(g: QueryGraph, c: Control, store: Store, sizes: Sizes)
    reads g.nodes, store, store.pool, sizes
  {
    && c.state == ScheduleState && c.queue == [] && c.names == [] && c.runs == [] && c.log == [] && c.snapshots == []
    && Empty(store, sizes) && CanSchedule(g, c.roots)
  }

  /** What is known of the schedule, and of the runs executed so far. */
  ghost predicate OnSchedule(g: QueryGraph, config: Config, c: Control) {
    && c.roots == [] && IsSchedule(g, config.libraries, config.reuse, c.runs, c.allReuseLinks)
    && ((forall n :: n in g.nodes ==> n in ScheduledNodes(c.runs)) <==> Acyclic(g))
    && InQueueOrder(config, c.runs, |c.log|, c.log)
    && RunsNoted(PlanOf(g, config.reuse, c.runs), config.recordSizes, c.runs, c.log, c.snapshots)
    && Delivered(PlanOf(g, config.reuse, c.runs), c.runs, c.snapshots)
  }

  /** Between two runs. */
  ghost predicate AtRest(g: QueryGraph, config: Config, c: Control, store: Store, sizes: Sizes)
    reads g.nodes, store, store.pool, sizes
  {
    && OnSchedule(g, config, c) && c.state != ExecuteState
    && BetweenRuns(PlanOf(g, config.reuse, c.runs), c.runs, |c.log|, c.names, store, sizes)
    && c.queue == c.runs[|c.log|..] && (c.state == ScheduleState ==> c.queue == [])
    && Underway(PlanOf(g, config.reuse, c.runs), c.runs, c.snapshots, Taken(store, sizes))
  }

  /** A run is set up, on its own bitstream, and its streams have their IDs. */
  ghost predicate InRun(g: QueryGraph, config: Config, c: Control, store: Store, sizes: Sizes, fabric: Fabric)
    reads g.nodes, store, store.pool, sizes, fabric
  {
    var plan := PlanOf(g, config.reuse, c.runs);
    && OnSchedule(g, config, c) && c.state == ExecuteState
    && DuringRun(plan, config.recordSizes, c.runs, |c.log|, c.names, c.setup, store, sizes)
    && RunCanBeSetUp(plan, c.runs, |c.log|)
    && c.queue == c.runs[|c.log| + 1..]
    && LinksOfRun(plan, c.runs[|c.log|].nodes, c.currentReuseLinks)
    && OnItsBitstream(config, c.runs[|c.log|], fabric.loadedBitstream, fabric.loadedRegisterSpaceSize)
    && StreamsNumbered(plan, c.runs[|c.log|].nodes, c.setup.inputIds, c.setup.outputIds)
    && Underway(plan, c.runs, c.snapshots, Taken(store, sizes))
  }

  /** What holds in every state the machine reaches. */
  ghost predicate Consistent(g: QueryGraph, config: Config, c: Control, store: Store, sizes: Sizes, fabric: Fabric)
    reads g.nodes, store, store.pool, sizes, fabric
  {
    if !c.scheduled then Unscheduled(g, c, store, sizes)
    else if c.state == ExecuteState then InRun(g, config, c, store, sizes, fabric)
    else AtRest(g, config, c, store, sizes)
  }

  function AfterScheduling(c: Control, runs: seq<Run>, links: LinkMap): Control {
    c.(state := SetupNodesState, roots := [], queue := runs, allReuseLinks := links, scheduled := true, runs := runs)
  }

  /** Schedules a graph; memory is not involved. */
  method MakeSchedule(roots: seq<QueryNode>, config: Config, store: Store, sizes: Sizes, ghost g: QueryGraph,
                      ghost c: Control)
    returns (status: Status, runs: seq<Run>, links: LinkMap)
    requires Unscheduled(g, c, store, sizes) && roots == c.roots
    modifies g.nodes
    ensures status == Ok ==> AtRest(g, config, AfterScheduling(c, runs, links), store, sizes)
    ensures status == FailedToSchedule ==> CannotStart(g, config.libraries, ScheduledNodes(runs))
    ensures status == ReadOutside ==> !ParametersExist(g)
    ensures status == ParametersNotFound ==> NeedsUnknownModule(g, config.libraries, ScheduledNodes(runs))
  {
    status, runs, links := FindAcceleratedQueryNodeSets(roots, config.libraries, config.reuse, g);
    if status == Ok {
      ScheduleIsPending(g, config.reuse, runs);
      ExecutionStarts(PlanOf(g, config.reuse, runs), runs, store, sizes);
    }
  }

  lemma AfterSchedulingFields(c: Control, runs: seq<Run>, links: LinkMap)
    ensures var later := AfterScheduling(c, runs, links);
            && later.state == SetupNodesState && later.roots == [] && later.queue == runs && later.names == c.names
            && later.allReuseLinks == links && later.currentReuseLinks == c.currentReuseLinks
            && later.setup == c.setup && later.scheduled && later.runs == runs && later.log == c.log
            && later.snapshots == c.snapshots
  {
  }

  function AfterSetup(c: Control, setup: Setup): Control
    requires c.queue != []
  {
    var nodes := c.queue[0].nodes;
    c.(state := ExecuteState, queue := c.queue[1..], names := c.names + NodeNames(nodes),
       currentReuseLinks := GetCurrentLinks(nodes, c.allReuseLinks), setup := setup)
  }

  lemma AfterSetupFields(c: Control, setup: Setup)
    requires c.queue != []
    ensures var later, nodes := AfterSetup(c, setup), c.queue[0].nodes;
            && later.state == ExecuteState && later.queue == c.queue[1..] && later.names == c.names + NodeNames(nodes)
            && later.currentReuseLinks == GetCurrentLinks(nodes, c.allReuseLinks) && later.setup == setup
            && later.roots == c.roots && later.allReuseLinks == c.allReuseLinks && later.scheduled == c.scheduled
            && later.runs == c.runs && later.log == c.log && later.snapshots == c.snapshots
  {
  }

  /** The bitstream of the next run exists. */
  lemma NextIsSound(g: QueryGraph, config: Config, c: Control)
    requires OnSchedule(g, config, c) && |c.log| < |c.runs|
    ensures c.runs[|c.log|].modules in config.libraries.bitstreams && c.runs[|c.log|].nodes != []
  {
  }

  /** Loads the bitstream of the next run; fails where the memory space of that bitstream is not configured. */
  method LoadNextBitstreamIfNew(run: Run, config: Config, fabric: Fabric) returns (ok: bool)
    requires run.modules in config.libraries.bitstreams
    modifies fabric
    ensures ok <==> config.libraries.bitstreams[run.modules] in config.requiredMemorySpace
    ensures ok ==> OnItsBitstream(config, run, fabric.loadedBitstream, fabric.loadedRegisterSpaceSize)
  {
    var bitstream := config.libraries.bitstreams[run.modules];
    ok := bitstream in config.requiredMemorySpace;
    if ok {
      fabric.LoadBitstreamIfNew(bitstream, config.requiredMemorySpace[bitstream]);
    }
  }

  /** What is known of the next run. */
  lemma NextRunIsReady(g: QueryGraph, config: Config, c: Control, store: Store, sizes: Sizes)
    requires AtRest(g, config, c, store, sizes) && c.queue != []
    ensures |c.log| < |c.runs| && c.runs[|c.log|] == c.queue[0] && c.queue == c.runs[|c.log|..]
    ensures TopologicalOrder(g, ScheduledNodes(c.runs))
    ensures BetweenRuns(PlanOf(g, config.reuse, c.runs), c.runs, |c.log|, c.names, store, sizes)
    ensures OnSchedule(g, config, c) && |c.snapshots| == |c.log|
    ensures Underway(PlanOf(g, config.reuse, c.runs), c.runs, c.snapshots, Taken(store, sizes))
    ensures PlanOf(g, config.reuse, c.runs).g == g && PlanOf(g, config.reuse, c.runs).reuse == config.reuse
    ensures forall n :: n in c.queue[0].nodes ==> n in g.nodes
  {
    assert RunPending(PlanOf(g, config.reuse, c.runs), c.runs[|c.log|].nodes);
  }

  lemma RootsAreUnscheduled(g: QueryGraph, config: Config, c: Control, store: Store, sizes: Sizes, fabric: Fabric)
    requires Consistent(g, config, c, store, sizes, fabric) && c.roots != []
    ensures !c.scheduled
  {
  }

  lemma UnscheduledIsScheduling(g: QueryGraph, config: Config, c: Control, store: Store, sizes: Sizes,
                                fabric: Fabric)
    requires Consistent(g, config, c, store, sizes, fabric) && c.state != ScheduleState
    ensures c.scheduled
  {
  }

  lemma RunIsSetUp(g: QueryGraph, config: Config, c: Control, store: Store, sizes: Sizes, fabric: Fabric, setup: Setup)
    requires OnSchedule(g, config, c) && |c.log| < |c.runs| && c.queue == c.runs[|c.log|..]
    requires OnItsBitstream(config, c.queue[0], fabric.loadedBitstream, fabric.loadedRegisterSpaceSize)
    requires var plan := PlanOf(g, config.reuse, c.runs);
             && RunCanBeSetUp(plan, c.runs, |c.log|)
             && DuringRun(plan, config.recordSizes, c.runs, |c.log|, c.names + NodeNames(c.queue[0].nodes), setup,
                          store, sizes)
             && Underway(plan, c.runs, c.snapshots, Taken(store, sizes))
             && StreamsNumbered(plan, c.queue[0].nodes, setup.inputIds, setup.outputIds)
    ensures InRun(g, config, AfterSetup(c, setup), store, sizes, fabric)
  {
    hide StreamsNumbered, LinksRecorded, SetUp, CanSetUp, RunsPending, Underway, Delivered, RunsNoted;
    CurrentLinksAreOfRun(PlanOf(g, config.reuse, c.runs), c.queue[0].nodes, c.allReuseLinks);
  }

  /** Sets the next run up, once its bitstream is loaded. */
  method SetupNext(run: Run, names: seq<string>, config: Config, store: Store, sizes: Sizes, fabric: Fabric,
                   ghost g: QueryGraph, ghost c: Control)
    returns (status: SetupStatus, setup: Setup)
    requires AtRest(g, config, c, store, sizes) && c.queue != [] && run == c.queue[0] && names == c.names
    requires OnItsBitstream(config, run, fabric.loadedBitstream, fabric.loadedRegisterSpaceSize)
    modifies store`inputs, store`outputs, store`places, store.pool, sizes`inputs, sizes`outputs, run.nodes`nextNodes
    ensures status == AllSet ==> InRun(g, config, AfterSetup(c, setup), store, sizes, fabric)
    ensures status != AllSet ==> RunHasObstacle(PlanOf(g, config.reuse, c.runs), c.runs, |c.log|, status)
  {
    hide *;
    NextRunIsReady(g, config, c, store, sizes);
    ghost var before, plan := Taken(store, sizes), PlanOf(g, config.reuse, c.runs);
    TakenIs(store, sizes);
    status, setup := SetupRun(run.nodes, names, store, sizes, config.recordSizes, plan, c.runs, |c.log|);
    if status == AllSet {
      TakenIs(store, sizes);
      StaysUnderway(plan, c.runs, c.snapshots, before, Taken(store, sizes));
      RunIsSetUp(g, config, c, store, sizes, fabric, setup);
    }
  }

  lemma TakenIs(store: Store, sizes: Sizes)
    ensures Taken(store, sizes).places == store.places
    ensures Taken(store, sizes).inputs == sizes.inputs && Taken(store, sizes).outputs == sizes.outputs
  {
  }

  /** The current run, as it is executed. */
  ghost function ExecutionOf(run: Run, setup: Setup, fabric: Fabric, resultSizes: seq<int>): Execution
    reads fabric
  {
    Execution(run.nodes, fabric.loadedBitstream, fabric.loadedRegisterSpaceSize, setup.accelerated, setup.inputIds,
              setup.outputIds, resultSizes)
  }

  lemma ExecutionFields(run: Run, setup: Setup, fabric: Fabric, resultSizes: seq<int>)
    ensures var execution := ExecutionOf(run, setup, fabric, resultSizes);
            && execution.nodes == run.nodes && execution.bitstream == fabric.loadedBitstream
            && execution.registerSpace == fabric.loadedRegisterSpaceSize && execution.told == setup.accelerated
            && execution.inputIds == setup.inputIds && execution.outputIds == setup.outputIds
            && execution.resultSizes == resultSizes
  {
  }

  function AfterRun(c: Control, execution: Execution, snapshot: Inventory): Control {
    c.(state := SetupNodesState, log := c.log + [execution], snapshots := c.snapshots + [snapshot])
  }

  /** One more run has been executed. */
  lemma RunIsCleared(g: QueryGraph, config: Config, c: Control, store: Store, sizes: Sizes, execution: Execution,
                     before: Inventory)
    requires OnSchedule(g, config, c) && |c.log| < |c.runs| && c.queue == c.runs[|c.log| + 1..]
    requires execution.nodes == c.runs[|c.log|].nodes
    requires OnItsBitstream(config, c.runs[|c.log|], execution.bitstream, execution.registerSpace)
    requires var plan := PlanOf(g, config.reuse, c.runs);
             && RunCanBeSetUp(plan, c.runs, |c.log|)
             && RunNoted(plan, config.recordSizes, c.runs[|c.log|].nodes, execution, before)
             && BetweenRuns(plan, c.runs, |c.log| + 1, c.names, store, sizes)
             && Delivered(plan, c.runs, c.snapshots + [before])
             && Underway(plan, c.runs, c.snapshots + [before], Taken(store, sizes))
    ensures AtRest(g, config, AfterRun(c, execution, before), store, sizes)
  {
    hide BetweenRuns, IsSchedule, WellFormed, Acyclic, Delivered, Underway, RunNoted, CanSetUp, RunCanBeSetUp;
    hide OnItsBitstream, RunsNoted, InQueueOrder;
    OneMoreInOrder(config, c.runs, c.log, execution);
    OneMoreNoted(PlanOf(g, config.reuse, c.runs), config.recordSizes, c.runs, c.log, c.snapshots, execution, before);
    assert AfterRun(c, execution, before).log == c.log + [execution];
    assert c.runs[|c.log| + 1..] == c.runs[|c.log + [execution]|..];
  }

  lemma OneMoreInOrder(config: Config, runs: seq<Run>, log: seq<Execution>, execution: Execution)
    requires |log| < |runs| && InQueueOrder(config, runs, |log|, log)
    requires execution.nodes == runs[|log|].nodes && OnItsBitstream(config, runs[|log|], execution.bitstream,
                                                                    execution.registerSpace)
    ensures InQueueOrder(config, runs, |log| + 1, log + [execution])
  {
  }

  lemma OneMoreNoted(plan: Plan, recordSizes: RecordSizes, runs: seq<Run>, log: seq<Execution>,
                     snapshots: seq<Inventory>, execution: Execution, before: Inventory)
    requires RunsNoted(plan, recordSizes, runs, log, snapshots) && RunCanBeSetUp(plan, runs, |log|)
    requires RunNoted(plan, recordSizes, runs[|log|].nodes, execution, before)
    ensures RunsNoted(plan, recordSizes, runs, log + [execution], snapshots + [before])
  {
    hide RunNoted, CanSetUp;
    var more, all := log + [execution], snapshots + [before];
    forall k | 0 <= k < |more|
      ensures RunCanBeSetUp(plan, runs, k)
      ensures RunNoted(plan, recordSizes, runs[k].nodes, more[k], all[k])
    {
      if k < |log| {
        assert more[k] == log[k] && all[k] == snapshots[k];
      } else {
        assert more[k] == execution && all[k] == before;
      }
    }
  }

  /** With nothing queued, the machine can go back to scheduling. */
  lemma NothingQueued(g: QueryGraph, config: Config, c: Control, store: Store, sizes: Sizes)
    requires AtRest(g, config, c, store, sizes) && c.queue == []
    ensures AtRest(g, config, c.(state := ScheduleState), store, sizes)
  {
  }

  /** What is known of the run that is set up. */
  lemma CurrentRunIsReady(g: QueryGraph, config: Config, c: Control, store: Store, sizes: Sizes, fabric: Fabric)
    requires InRun(g, config, c, store, sizes, fabric)
    ensures OnSchedule(g, config, c) && |c.log| < |c.runs| && c.queue == c.runs[|c.log| + 1..]
    ensures c.setup.accelerated != []
    ensures OnItsBitstream(config, c.runs[|c.log|], fabric.loadedBitstream, fabric.loadedRegisterSpaceSize)
    ensures |c.snapshots| == |c.log|
    ensures var plan := PlanOf(g, config.reuse, c.runs);
            && plan.g == g && plan.reuse == config.reuse && TopologicalOrder(g, ScheduledNodes(c.runs))
            && RunCanBeSetUp(plan, c.runs, |c.log|) && AllInPlan(plan, c.runs[|c.log|].nodes)
            && SetUp(plan, config.recordSizes, Executed(c.runs, |c.log|), c.runs[|c.log|].nodes, c.setup, store, sizes)
            && RunsPending(plan, c.runs, |c.log| + 1) && PreviousFit(plan)
            && NamesOf(c.names, Executed(c.runs, |c.log|) + Members(c.runs[|c.log|].nodes))
            && LinksOfRun(plan, c.runs[|c.log|].nodes, c.currentReuseLinks)
            && StreamsNumbered(plan, c.runs[|c.log|].nodes, c.setup.inputIds, c.setup.outputIds)
            && Delivered(plan, c.runs, c.snapshots) && Underway(plan, c.runs, c.snapshots, Taken(store, sizes))
  {
    hide Allocated, InputsShaped, OutputsShaped, AllTargetsReady, CanSetUp, Delivered, Underway, StreamsNumbered;
    NextIsSound(g, config, c);
  }

  lemma RunIsNoted(plan: Plan, recordSizes: RecordSizes, nodes: seq<QueryNode>, execution: Execution,
                   executed: Inventory)
    requires AllInPlan(plan, nodes) && StreamsNumbered(plan, nodes, execution.inputIds, execution.outputIds)
    requires forall n :: n in execution.told ==> MergeSortFits(n)
    requires RunTold(plan.g, recordSizes, nodes, execution.told, execution.inputIds, execution.outputIds,
                     executed.places, executed.inputs)
    requires CountsNoted(plan, recordSizes, nodes, execution.outputIds, execution.resultSizes, executed.outputs)
    ensures RunNoted(plan, recordSizes, nodes, execution, executed)
  {
  }

  /** Notes the results of the current run and clears it away. */
  method FinishRun(resultSizes: seq<int>, results: ResultMap, names: seq<string>, links: LinkMap, config: Config,
                   store: Store, sizes: Sizes, fabric: Fabric, ghost g: QueryGraph, ghost c: Control)
    returns (ghost executed: Inventory)
    requires InRun(g, config, c, store, sizes, fabric) && |resultSizes| == AccelerationConstants.MAX_IO_STREAM_COUNT
    requires results == c.setup.results && names == c.names && links == c.currentReuseLinks
    requires forall n :: n in c.setup.accelerated ==> MergeSortFits(n)
    modifies store`inputs, store`outputs, store`places, store.pool, sizes`inputs, sizes`outputs
    ensures |c.log| < |c.runs|
    ensures AtRest(g, config, AfterRun(c, ExecutionOf(c.runs[|c.log|], c.setup, fabric, resultSizes), executed), store,
                   sizes)
  {
    hide *;
    CurrentRunIsReady(g, config, c, store, sizes, fabric);
    ghost var plan, k, nodes := PlanOf(g, config.reuse, c.runs), |c.log|, c.runs[|c.log|].nodes;
    ghost var before := Taken(store, sizes);
    TakenIs(store, sizes);
    SetUpIsTold(plan, config.recordSizes, Executed(c.runs, k), nodes, c.setup, store, sizes);
    NoteResults(results, resultSizes, sizes, config.recordSizes, store, c.setup, plan, Executed(c.runs, k), nodes);
    executed := Taken(store, sizes);
    TakenIs(store, sizes);
    ghost var execution := ExecutionOf(c.runs[k], c.setup, fabric, resultSizes);
    ExecutionFields(c.runs[k], c.setup, fabric, resultSizes);
    RunIsNoted(plan, config.recordSizes, nodes, execution, executed);
    SameSizesWait(plan, Executed(c.runs, k), sizes.inputs);
    NothingGrown(store.places);
    StaysUnderway(plan, c.runs, c.snapshots, before, executed);
    RunFindsBlocks(plan, c.runs, c.snapshots, executed);
    ClearRun(names, links, store, sizes, plan, c.runs, k);
    RunSendsBlocks(plan, c.runs, c.snapshots, executed, Taken(store, sizes));
    RunIsCleared(g, config, c, store, sizes, execution, executed);
  }

  lemma NothingGrown(places: Places)
    ensures Grown(places, places)
  {
  }

  lemma NothingHeld(store: Store)
    requires Holds(store, iset{})
    ensures store.pool.held == {} && |store.pool.available| == store.pool.blockCount == store.pool.mostHeld
  {
    forall p ensures Content(store.inputs, store.outputs, p) == null {
      assert store.At(p) == null;
    }
    NothingLocated(store.inputs, store.outputs, store.places);
  }

  /** What a machine that has finished without an error has done. */
  ghost predicate AllExecuted(g: QueryGraph, config: Config, runs: seq<Run>, log: seq<Execution>,
                              snapshots: seq<Inventory>, store: Store)
    reads store, store.pool
  {
    var plan := PlanOf(g, config.reuse, runs);
    && ValidSchedule(g, config.libraries, runs) && InQueueOrder(config, runs, |runs|, log)
    && ((forall n :: n in g.nodes ==> n in ScheduledNodes(runs)) <==> Acyclic(g))
    && Holds(store, MemoryPlan.Waiting(plan, Members(ScheduledNodes(runs))))
    && RunsNoted(plan, config.recordSizes, runs, log, snapshots) && Delivered(plan, runs, snapshots)
  }

  lemma AllIsExecuted(g: QueryGraph, config: Config, c: Control, store: Store, sizes: Sizes, fabric: Fabric)
    requires Consistent(g, config, c, store, sizes, fabric) && c.state == ScheduleState && c.roots == []
    ensures AllExecuted(g, config, c.runs, c.log, c.snapshots, store)
  {
    hide RunClosed, WellFormed, CanSetUp, RunNoted, RunCanBeSetUp;
    if c.scheduled {
      hide Delivered, Underway, Acyclic, InQueueOrder;
      assert |c.log| == |c.runs| && c.runs[..|c.log|] == c.runs;
    } else {
      CoversIffAcyclic(g, []);
      assert MemoryPlan.Waiting(PlanOf(g, config.reuse, []), {}) == iset{};
    }
  }

  /** Without cycles, all blocks are back in the pool in the end. */
  lemma AllBlocksAreBack(g: QueryGraph, config: Config, runs: seq<Run>, log: seq<Execution>, snapshots: seq<Inventory>,
                         store: Store)
    requires AllExecuted(g, config, runs, log, snapshots, store) && Acyclic(g)
    ensures store.pool.held == {} && |store.pool.available| == store.pool.blockCount == store.pool.mostHeld
  {
    hide RunsNoted, Delivered;
    var plan, done := PlanOf(g, config.reuse, runs), Members(ScheduledNodes(runs));
    forall n, i: nat | n in done && MemoryLink(plan, n, i) ensures plan.g.next[n][i] in done {
      assert plan.g.next[n][i] in g.nodes;
    }
    NothingWaits(plan, done);
    NothingHeld(store);
  }

  /** Later states are lower. */
  function StateRank(state: State): nat {
    match state case ScheduleState => 0 case SetupNodesState => 1 case ExecuteState => 2
  }

  class Manager {
    const config: Config
    const store: Store
    const sizes: Sizes
    const fabric: Fabric
    var roots: seq<QueryNode>
    var queue: seq<Run>
    var allReuseLinks: LinkMap
    var currentReuseLinks: LinkMap
    var scheduledNodeNames: seq<string>
    var queryNodes: seq<AcceleratedNode>
    var resultParameters: ResultMap
    var state: State
    var busy: bool
    ghost var inputIds: IdManager.IdMap
    ghost var outputIds: IdManager.IdMap
    ghost var scheduled: bool
    ghost var runs: seq<Run>
    ghost var log: seq<Execution>
    ghost var snapshots: seq<Inventory>

    constructor (config: Config, pool: Pool, fabric: Fabric)
      requires pool.Valid() && pool.held == {}
      ensures this.config == config && fresh(store) && fresh(sizes) && store.pool == pool && this.fabric == fabric
      ensures Empty(store, sizes)
      ensures Now() == Control(ScheduleState, [], [], map[], map[], [], Setup([], map[], map[], map[]), false, [], [],
                               [])
    {
      this.config, this.fabric := config, fabric;
      store := new Store(pool);
      sizes := new Sizes();
      roots, queue, allReuseLinks, currentReuseLinks, scheduledNodeNames := [], [], map[], map[], [];
      queryNodes, resultParameters, inputIds, outputIds, state, busy := [], map[], map[], map[], ScheduleState, false;
      scheduled, runs, log, snapshots := false, [], [], [];
    }

    ghost function Now(): Control
      reads this
    {
      Control(state, roots, queue, allReuseLinks, currentReuseLinks, scheduledNodeNames,
              Setup(queryNodes, resultParameters, inputIds, outputIds), scheduled, runs, log, snapshots)
    }

    /** Why the machine stopped with an error. */
    ghost predicate Explained(g: QueryGraph, error: Error)
      reads this
    {
      match error
      case SchedulingFailed => CannotStart(g, config.libraries, ScheduledNodes(runs))
      case StreamParametersMissing => !ParametersExist(g)
      case ParametersMissing => NeedsUnknownModule(g, config.libraries, ScheduledNodes(runs))
      case MemorySpaceUnknown =>
        && queue != [] && queue[0].modules in config.libraries.bitstreams
        && config.libraries.bitstreams[queue[0].modules] !in config.requiredMemorySpace
      case SetupFailed(why) => RunHasObstacle(PlanOf(g, config.reuse, runs), runs, |log|, why)
      case RunInvalid => exists n :: n in queryNodes && !MergeSortFits(n)
    }

    /** Finishes if there is nothing to schedule, and schedules all of it otherwise. */
    method ExecuteScheduleState(ghost g: QueryGraph) returns (error: Option<Error>)
      requires Consistent(g, config, Now(), store, sizes, fabric) && state == ScheduleState && busy
      modifies this, g.nodes
      ensures error == None ==> Consistent(g, config, Now(), store, sizes, fabric)
      ensures old(roots) == [] ==> error == None && !busy && Now() == old(Now())
      ensures error.Some? ==> Explained(g, error.value)
      ensures old(roots) != [] && error == None ==> busy && state == SetupNodesState && scheduled && !old(scheduled)
    {
      hide AtRest, InRun, Unscheduled, WellFormed, Snapshot;
      error := None;
      if roots == [] {
        busy := false;
      } else {
        RootsAreUnscheduled(g, config, Now(), store, sizes, fabric);
        error := ScheduleUnscheduledNodes(g);
      }
    }

    /** Takes a new schedule over. */
    method AdoptSchedule(newRuns: seq<Run>, links: LinkMap)
      modifies this`roots, this`queue, this`allReuseLinks, this`state, this`scheduled, this`runs
      ensures Now() == AfterScheduling(old(Now()), newRuns, links) && scheduled && state == SetupNodesState
    {
      hide *;
      ghost var was := Now();
      AllFieldsAre(was);
      AfterSchedulingFields(was, newRuns, links);
      roots, queue, allReuseLinks, runs, scheduled, state := [], newRuns, links, newRuns, true, SetupNodesState;
      NowIs(AfterScheduling(was, newRuns, links));
    }

    method ScheduleUnscheduledNodes(ghost g: QueryGraph) returns (error: Option<Error>)
      requires Unscheduled(g, Now(), store, sizes)
      modifies this`roots, this`queue, this`allReuseLinks, this`state, this`scheduled, this`runs, g.nodes
      ensures error == None ==> scheduled && state == SetupNodesState && AtRest(g, config, Now(), store, sizes)
      ensures error.Some? ==> Explained(g, error.value)
    {
      hide *;
      FieldsAreNow();
      var status, newRuns, links := MakeSchedule(roots, config, store, sizes, g, Now());
      if status == Ok {
        AdoptSchedule(newRuns, links);
        error := None;
      } else {
        roots, runs := [], newRuns;
        error := Some(if status == FailedToSchedule then SchedulingFailed
                      else if status == ParametersNotFound then ParametersMissing
                      else StreamParametersMissing);
        ScheduleErrorExplained(g, error.value);
      }
    }

    lemma ScheduleErrorExplained(g: QueryGraph, error: Error)
      requires error in {SchedulingFailed, ParametersMissing, StreamParametersMissing}
      requires error == SchedulingFailed ==> CannotStart(g, config.libraries, ScheduledNodes(runs))
      requires error == ParametersMissing ==> NeedsUnknownModule(g, config.libraries, ScheduledNodes(runs))
      requires error == StreamParametersMissing ==> !ParametersExist(g)
      ensures Explained(g, error)
    {
    }

    /** Sets the next run up, or goes back to scheduling when there is none. */
    method ExecuteSetupNodesState(ghost g: QueryGraph) returns (error: Option<Error>)
      requires Consistent(g, config, Now(), store, sizes, fabric) && state == SetupNodesState && scheduled
      modifies this, store`inputs, store`outputs, store`places, store.pool, sizes, fabric, g.nodes
      ensures error == None ==> Consistent(g, config, Now(), store, sizes, fabric)
      ensures error == None ==> unchanged(this`scheduled, this`busy, this`log, this`runs)
      ensures error == None ==> if old(queue) == [] then state == ScheduleState && queue == []
           else state == ExecuteState && queue == old(queue)[1..]
      ensures error.Some? ==> Explained(g, error.value)
    {
      hide AtRest, InRun, Unscheduled, StreamsNumbered, WellFormed;
      if queue == [] {
        NothingQueued(g, config, Now(), store, sizes);
        state := ScheduleState;
        assert Now() == old(Now()).(state := ScheduleState);
        error := None;
      } else {
        error := SetupNextRunData(g);
      }
    }

    lemma SetupErrorExplained(g: QueryGraph, error: Error)
      requires queue != [] && queue[0].modules in config.libraries.bitstreams
      requires match error
               case MemorySpaceUnknown => config.libraries.bitstreams[queue[0].modules] !in config.requiredMemorySpace
               case SetupFailed(why) => RunHasObstacle(PlanOf(g, config.reuse, runs), runs, |log|, why)
               case _ => false
      ensures Explained(g, error)
    {
    }

    lemma AllFieldsAre(c: Control)
      requires c == Now()
      ensures state == c.state && roots == c.roots && queue == c.queue && scheduledNodeNames == c.names
      ensures allReuseLinks == c.allReuseLinks && currentReuseLinks == c.currentReuseLinks
      ensures Setup(queryNodes, resultParameters, inputIds, outputIds) == c.setup
      ensures scheduled == c.scheduled && runs == c.runs && log == c.log && snapshots == c.snapshots
    {
    }

    lemma FieldsAreNow()
      ensures Now().roots == roots && Now().queue == queue && Now().names == scheduledNodeNames
      ensures Now().setup == Setup(queryNodes, resultParameters, inputIds, outputIds)
      ensures Now().currentReuseLinks == currentReuseLinks && Now().runs == runs && Now().log == log
    {
    }

    /** Pops the next run off the queue and makes it the current one. */
    method PopNextScheduledRun(setup: Setup)
      requires queue != []
      modifies this`queue, this`state, this`scheduledNodeNames, this`currentReuseLinks, this`queryNodes
      modifies this`resultParameters, this`inputIds, this`outputIds
      ensures queue == old(queue)[1..] && state == ExecuteState
      ensures scheduledNodeNames == old(scheduledNodeNames) + NodeNames(old(queue)[0].nodes)
      ensures currentReuseLinks == GetCurrentLinks(old(queue)[0].nodes, allReuseLinks)
      ensures Setup(queryNodes, resultParameters, inputIds, outputIds) == setup
    {
      hide *;
      var nodes := queue[0].nodes;
      queue, scheduledNodeNames := queue[1..], scheduledNodeNames + NodeNames(nodes);
      currentReuseLinks, state := GetCurrentLinks(nodes, allReuseLinks), ExecuteState;
      queryNodes, resultParameters := setup.accelerated, setup.results;
      inputIds, outputIds := setup.inputIds, setup.outputIds;
    }

    /** All fields are those of `c`. */
    lemma NowIs(c: Control)
      requires state == c.state && roots == c.roots && queue == c.queue && scheduledNodeNames == c.names
      requires allReuseLinks == c.allReuseLinks && currentReuseLinks == c.currentReuseLinks
      requires Setup(queryNodes, resultParameters, inputIds, outputIds) == c.setup
      requires scheduled == c.scheduled && runs == c.runs && log == c.log && snapshots == c.snapshots
      ensures Now() == c
    {
    }

    /** The next run becomes the current one, as it has been set up. */
    method TakeRun(setup: Setup)
      requires queue != []
      modifies this`queue, this`state, this`scheduledNodeNames, this`currentReuseLinks, this`queryNodes
      modifies this`resultParameters, this`inputIds, this`outputIds
      ensures Now() == AfterSetup(old(Now()), setup) && state == ExecuteState && queue == old(queue)[1..]
    {
      hide *;
      ghost var was := Now();
      AllFieldsAre(was);
      PopNextScheduledRun(setup);
      AfterSetupFields(was, setup);
      NowIs(AfterSetup(was, setup));
    }

    method SetupNextRunData(ghost g: QueryGraph) returns (error: Option<Error>)
      requires AtRest(g, config, Now(), store, sizes) && queue != []
      modifies this`queue, this`state, this`scheduledNodeNames, this`currentReuseLinks, this`queryNodes
      modifies this`resultParameters, this`inputIds, this`outputIds
      modifies store`inputs, store`outputs, store`places, store.pool, sizes, fabric, g.nodes
      ensures error == None ==> state == ExecuteState && queue == old(queue)[1..]
      ensures error == None ==> InRun(g, config, Now(), store, sizes, fabric)
      ensures error.Some? ==> Explained(g, error.value)
    {
      hide *;
      var run := queue[0];
      FieldsAreNow();
      NextRunIsReady(g, config, Now(), store, sizes);
      NextIsSound(g, config, Now());
      var ok := LoadNextBitstreamIfNew(run, config, fabric);
      if ok {
        var status, setup := SetupNext(run, scheduledNodeNames, config, store, sizes, fabric, g, Now());
        if status == AllSet {
          TakeRun(setup);
          error := None;
        } else {
          error := Some(SetupFailed(status));
          SetupErrorExplained(g, error.value);
        }
      } else {
        error := Some(MemorySpaceUnknown);
        SetupErrorExplained(g, MemorySpaceUnknown);
      }
    }

    /** Executes the current run, if its merge sorts can take their streams. */
    method ExecuteExecuteState(ghost g: QueryGraph) returns (error: Option<Error>)
      requires Consistent(g, config, Now(), store, sizes, fabric) && state == ExecuteState && scheduled
      modifies this`state, this`log, this`snapshots, store`inputs, store`outputs, store`places, store.pool, sizes
      ensures error == None <==> forall n :: n in queryNodes ==> MergeSortFits(n)
      ensures error.Some? ==> error == Some(RunInvalid) && Explained(g, RunInvalid)
      ensures error == None ==> Consistent(g, config, Now(), store, sizes, fabric) && state == SetupNodesState
      ensures error == None ==> |log| == |old(log)| + 1 && |snapshots| == |old(snapshots)| + 1
      ensures error == None ==> old(log) <= log && old(snapshots) <= snapshots
    {
      hide AtRest, InRun, Unscheduled, WellFormed, MergeSortFits;
      HasNodes(g);
      assert queryNodes != [];
      var valid := IsRunValid(queryNodes);
      if !valid {
        error := Some(RunInvalid);
      } else {
        ExecuteAndProcessResults(g);
        error := None;
      }
    }

    lemma HasNodes(g: QueryGraph)
      requires InRun(g, config, Now(), store, sizes, fabric)
      ensures queryNodes != []
    {
      FieldsAreNow();
      hide *;
      CurrentRunIsReady(g, config, Now(), store, sizes, fabric);
    }

    method ExecuteAndProcessResults(ghost g: QueryGraph)
      requires InRun(g, config, Now(), store, sizes, fabric) && forall n :: n in queryNodes ==> MergeSortFits(n)
      modifies this`state, this`log, this`snapshots, store`inputs, store`outputs, store`places, store.pool, sizes
      ensures state == SetupNodesState && AtRest(g, config, Now(), store, sizes)
      ensures exists execution, executed :: log == old(log) + [execution] && snapshots == old(snapshots) + [executed]
    {
      hide AtRest, InRun, WellFormed;
      FieldsAreNow();
      ghost var told;
      var resultSizes;
      resultSizes, told := RunQueryAcceleration(queryNodes);
      ghost var was := Now();
      ghost var executed := FinishRun(resultSizes, resultParameters, scheduledNodeNames, currentReuseLinks, config,
                                      store, sizes, fabric, g, Now());
      ghost var execution := Execution(runs[|log|].nodes, fabric.loadedBitstream, fabric.loadedRegisterSpaceSize, told,
                                       inputIds, outputIds, resultSizes);
      log, snapshots, state := log + [execution], snapshots + [executed], SetupNodesState;
      assert Now() == AfterRun(was, execution, executed);
    }

    /** The machine comes closer to its end with every turn. */
    twostate predicate Closer()
      reads this
    {
      || (scheduled && !old(scheduled))
      || (scheduled == old(scheduled) && |queue| < |old(queue)|)
      || (scheduled == old(scheduled) && |queue| == |old(queue)| && StateRank(state) < StateRank(old(state)))
    }

    /** One turn of the driver loop. */
    method Step(ghost g: QueryGraph) returns (error: Option<Error>)
      requires Consistent(g, config, Now(), store, sizes, fabric) && busy
      modifies this, store`inputs, store`outputs, store`places, store.pool, sizes, fabric, g.nodes
      ensures error == None ==> Consistent(g, config, Now(), store, sizes, fabric)
      ensures error == None ==> if busy then Closer() else state == ScheduleState && roots == []
      ensures error.Some? ==> Explained(g, error.value)
    {
      hide AtRest, InRun, Unscheduled, WellFormed, StreamsNumbered, CannotStart, NeedsUnknownModule, MergeSortFits;
      hide RunHasObstacle;
      if state != ScheduleState {
        UnscheduledIsScheduling(g, config, Now(), store, sizes, fabric);
      }
      match state
      case ScheduleState => error := ExecuteScheduleState(g);
      case SetupNodesState => error := ExecuteSetupNodesState(g);
      case ExecuteState => error := ExecuteExecuteState(g);
    }

    /**
     * Schedules and executes a graph. It always comes to an end: with an error that is explained, or with every run
     * executed once, in the order they were scheduled, each on its own bitstream. In that case every run could be set
     * up, every consumer found the very block its producer wrote, with the count that the FPGA reported for it, and
     * what is still held waits for nodes that could not be scheduled, so without cycles nothing is.
     */
    method Execute(graphRoots: seq<QueryNode>, ghost g: QueryGraph) returns (error: Option<Error>)
      requires !scheduled && state == ScheduleState && queue == [] && scheduledNodeNames == [] && runs == []
           && log == [] && snapshots == []
      requires Empty(store, sizes) && CanSchedule(g, graphRoots)
      modifies this, store`inputs, store`outputs, store`places, store.pool, sizes, fabric, g.nodes
      ensures error.Some? ==> Explained(g, error.value)
      ensures error == None ==> AllExecuted(g, config, runs, log, snapshots, store)
      ensures error == None && Acyclic(g) ==>
                store.pool.held == {} && |store.pool.available| == store.pool.blockCount == store.pool.mostHeld
    {
      hide AtRest, InRun, WellFormed, StreamsNumbered, CannotStart, NeedsUnknownModule, AllExecuted, Acyclic;
      hide MergeSortFits;
      hide RunHasObstacle;
      roots, busy := graphRoots, true;
      error := None;
      assert Consistent(g, config, Now(), store, sizes, fabric);
      while busy && error == None
        invariant error == None ==> Consistent(g, config, Now(), store, sizes, fabric)
        invariant error == None && !busy ==> state == ScheduleState && roots == []
        invariant error.Some? ==> Explained(g, error.value)
        decreases error == None, busy, !scheduled, |queue|, StateRank(state)
      {
        error := Step(g);
      }
      if error == None {
        AllIsExecuted(g, config, Now(), store, sizes, fabric);
        if Acyclic(g) {
          AllBlocksAreBack(g, config, runs, log, snapshots, store);
        }
      }
    }
  }
}
