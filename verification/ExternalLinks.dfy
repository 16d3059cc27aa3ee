/** Cutting the links that leave a run: into memory links, or into files handed from producer to consumer. */
module ExternalLinks {
  import opened Options
  import opened Sequences
  import opened QueryNodes
  import opened Decimals

  /** For a node and an output of it, the consumer (and its input) that takes over the memory block. */
  type LinkMap = map<string, map<nat, seq<(string, nat)>>>

  /** Whether the data between two nodes may stay in memory between runs. */
  type ReusePolicy = (QueryNode, QueryNode) -> bool

  /** The policy in force: memory is always reused. */
  function ReuseMemory(source: QueryNode, target: QueryNode): bool { true }

  /** What becomes of an output of a node when its run is cut off. */
  datatype LinkKind = Output | Internal | Memory | File

  /** For every scheduled node, the nodes of its run. */
  type Homes = map<QueryNode, seq<QueryNode>>

  ghost predicate HasOutput(g: Graph, n: QueryNode, i: int) {
    && n in g.next && n in g.outputs && n in g.previous && n in g.inputs
    && 0 <= i < |g.next[n]| == |g.outputs[n]|
  }

  ghost function LinkKindOf(g: Graph, reuse: ReusePolicy, members: seq<QueryNode>, n: QueryNode, i: int): LinkKind
    requires HasOutput(g, n, i)
  {
    if g.next[n][i] == null then Output
    else if g.next[n][i] in members then Internal
    else if g.outputs[n][i] == "" && reuse(n, g.next[n][i]) then Memory
    else File
  }

  function AutomaticFileName(name: string, i: nat): (file: string)
    ensures file != ""
  {
    name + "_" + ToString(i) + ".csv"
  }

  /** The name and the output can be read off an automatic file name. */
  lemma FileNameTellsOutput(name: string, i: nat, other: string, j: nat)
    requires AutomaticFileName(name, i) == AutomaticFileName(other, j)
    ensures name == other && i == j
  {
    var a, b := name + "_" + ToString(i), other + "_" + ToString(j);
    assert AutomaticFileName(name, i)[..|a|] == a && AutomaticFileName(other, j)[..|b|] == b;
    DigitsAtEnd(name, ToString(i), other, ToString(j));
    ValueOfNumeral(i);
    ValueOfNumeral(j);
  }

  lemma DigitsAtEnd(name: string, digits: string, other: string, otherDigits: string)
    requires AllDigits(digits) && AllDigits(otherDigits)
    requires name + "_" + digits == other + "_" + otherDigits
    ensures name == other && digits == otherDigits
  {
    var text := name + "_" + digits;
    assert text == other + "_" + otherDigits;
    assert text[|name|] == '_' && text[|other|] == '_';
    assert forall k :: |name| < k < |text| ==> text[k] == digits[k - |name| - 1];
    assert forall k :: |other| < k < |text| ==> text[k] == otherDigits[k - |other| - 1];
    assert |name| == |other|;
    assert text[..|name|] == name && text[..|other|] == other;
    assert text[|name| + 1..] == digits && text[|other| + 1..] == otherDigits;
  }

  /** The file of output `i` after its run has been cut off. */
  ghost function FileAfterCut(g: Graph, reuse: ReusePolicy, members: seq<QueryNode>, n: QueryNode, i: int): string
    requires HasOutput(g, n, i)
  {
    if g.outputs[n][i] == "" && LinkKindOf(g, reuse, members, n, i) in {Output, File} then AutomaticFileName(n.name, i)
    else g.outputs[n][i]
  }

  ghost function NextAfterCut(g: Graph, reuse: ReusePolicy, members: seq<QueryNode>, n: QueryNode, i: int): QueryNode?
    requires HasOutput(g, n, i)
  {
    if LinkKindOf(g, reuse, members, n, i) == File then null else g.next[n][i]
  }

  /** The input of the consumer that output `i` of `n` feeds. */
  ghost function Slot(g: QueryGraph, n: QueryNode, i: int): (slot: nat)
    requires n in g.nodes && 0 <= i < |g.next[n]| && g.next[n][i] != null
    ensures slot < |g.previous[g.next[n][i]]| && g.previous[g.next[n][i]][slot] == n
  {
    assert g.next[n][i] in g.next[n] && Satisfies(g, LinkEndsAgree);
    IndexOf<QueryNode?>(g.previous[g.next[n][i]], n)
  }

  /** The outputs of `n` before output `limit` have been cut; the others are as they were. */
  ghost predicate OutputsAre(g: QueryGraph, reuse: ReusePolicy, members: seq<QueryNode>, n: QueryNode, limit: nat,
                             next: seq<QueryNode?>, files: seq<string>)
    requires n in g.nodes
  {
    && |next| == |files| == |g.next[n]|
    && forall i :: 0 <= i < |next| ==>
         && next[i] == (if i < limit then NextAfterCut(g, reuse, members, n, i) else g.next[n][i])
         && files[i] == (if i < limit then FileAfterCut(g, reuse, members, n, i) else g.outputs[n][i])
  }

  /** The links and output files of `n` once its run, with the given members, has been cut off. */
  ghost predicate NodeCut(g: QueryGraph, reuse: ReusePolicy, members: seq<QueryNode>, n: QueryNode)
    requires n in g.nodes
    reads n
  {
    && OutputsAre(g, reuse, members, n, |g.next[n]|, n.nextNodes, n.outputFiles)
    && |n.previousNodes| == |g.previous[n]|
    && (forall j :: 0 <= j < |g.previous[n]| ==>
          n.previousNodes[j] ==
          if g.previous[n][j] != null && g.previous[n][j] in members then g.previous[n][j] else null)
  }

  /** The producer of input `j` of `t` hands its output over in a file. */
  ghost predicate FedByFile(g: QueryGraph, reuse: ReusePolicy, homes: Homes, t: QueryNode, j: int)
    requires t in g.nodes
  {
    && 0 <= j < |g.previous[t]| && g.previous[t][j] != null && g.previous[t][j] in homes
    && var p := g.previous[t][j];
    t in g.next[p] && LinkKindOf(g, reuse, homes[p], p, IndexOf<QueryNode?>(g.next[p], t)) == File
  }

  ghost function InputFile(g: QueryGraph, reuse: ReusePolicy, homes: Homes, t: QueryNode, j: int): string
    requires t in g.nodes && 0 <= j < |g.inputs[t]|
  {
    if FedByFile(g, reuse, homes, t, j) then
      var p := g.previous[t][j];
      FileAfterCut(g, reuse, homes[p], p, IndexOf<QueryNode?>(g.next[p], t))
    else g.inputs[t][j]
  }

  /** The node is cut off, or its links and output files are still those of the graph. */
  ghost predicate NodeState(g: QueryGraph, reuse: ReusePolicy, homes: Homes, n: QueryNode)
    requires n in g.nodes
    reads n
  {
    if n in homes then NodeCut(g, reuse, homes[n], n)
    else n.nextNodes == g.next[n] && n.previousNodes == g.previous[n] && n.outputFiles == g.outputs[n]
  }

  /** The graph with the runs of all nodes in `homes` cut off. */
  ghost predicate CutState(g: QueryGraph, reuse: ReusePolicy, homes: Homes)
    reads g.nodes
  {
    && (forall n {:trigger NodeState(g, reuse, homes, n)} :: n in g.nodes ==> NodeState(g, reuse, homes, n))
    && InputsCut(g, reuse, homes)
  }

  ghost predicate InputsCut(g: QueryGraph, reuse: ReusePolicy, homes: Homes)
    reads g.nodes
  {
    forall t {:trigger InputFilesAre(g, reuse, homes, t, t.inputFiles)} ::
      t in g.nodes ==> InputFilesAre(g, reuse, homes, t, t.inputFiles)
  }

  ghost predicate InputFilesAre(g: QueryGraph, reuse: ReusePolicy, homes: Homes, t: QueryNode, files: seq<string>)
    requires t in g.nodes
  {
    && |files| == |g.inputs[t]|
    && forall j :: 0 <= j < |files| ==> files[j] == InputFile(g, reuse, homes, t, j)
  }

  /** The memory links of the outputs of `n` before output `limit`. */
  ghost function NodeLinks(g: QueryGraph, reuse: ReusePolicy, members: seq<QueryNode>, n: QueryNode,
                           limit: nat): map<nat, seq<(string, nat)>>
    requires n in g.nodes && limit <= |g.next[n]|
  {
    if limit == 0 then map[] else
    var rest := NodeLinks(g, reuse, members, n, limit - 1);
    if LinkKindOf(g, reuse, members, n, limit - 1) == Memory
    then rest[limit - 1 := [(g.next[n][limit - 1].name, Slot(g, n, limit - 1))]] else rest
  }

  lemma {:induction false} NodeLinksAt(g: QueryGraph, reuse: ReusePolicy, members: seq<QueryNode>, n: QueryNode,
                                       limit: nat, i: nat)
    requires n in g.nodes && limit <= |g.next[n]|
    ensures i in NodeLinks(g, reuse, members, n, limit) <==> i < limit && LinkKindOf(g, reuse, members, n, i) == Memory
    ensures i in NodeLinks(g, reuse, members, n, limit) ==>
              NodeLinks(g, reuse, members, n, limit)[i] == [(g.next[n][i].name, Slot(g, n, i))]
  {
    if limit > 0 {
      NodeLinksAt(g, reuse, members, n, limit - 1, i);
    }
  }

  /** `links` holds the memory links of the nodes in `homes`, and nothing else. */
  ghost predicate LinksRecorded(g: QueryGraph, reuse: ReusePolicy, homes: Homes, links: LinkMap)
  {
    && (forall n :: n in g.nodes && n in homes ==>
          var own := NodeLinks(g, reuse, homes[n], n, |g.next[n]|);
          if own == map[] then n.name !in links else n.name in links && links[n.name] == own)
    && forall name :: name in links ==> exists n :: n in g.nodes && n in homes && n.name == name
  }

  method FindPreviousNodeLocation(previousNodes: seq<QueryNode?>, node: QueryNode) returns (location: Option<nat>)
    ensures location == if node in previousNodes then Some(IndexOf<QueryNode?>(previousNodes, node)) else None
  {
    var i := Find<QueryNode?>(previousNodes, node);
    location := if i < |previousNodes| then Some(i) else None;
  }

  predicate IsNodeMissingFromTheVector(linked: QueryNode?, current: seq<QueryNode>) {
    linked != null && linked !in current
  }

  /** `InputFilesAre`, while the outputs of `n` from `limit` on still have to be cut. */
  ghost predicate InputFilesUpTo(g: QueryGraph, reuse: ReusePolicy, homes: Homes, members: seq<QueryNode>, n: QueryNode,
                                 limit: int, t: QueryNode, files: seq<string>)
    requires t in g.nodes && n in g.nodes
  {
    && |files| == |g.inputs[t]|
    && forall j :: 0 <= j < |files| ==>
         files[j] == if j < |g.previous[t]| && g.previous[t][j] == n && IndexOf<QueryNode?>(g.next[n], t) < limit
                     then InputFile(g, reuse, homes[n := members], t, j)
                     else InputFile(g, reuse, homes, t, j)
  }

  /** Both ends of a link find each other at the positions they were linked with. */
  lemma LinkPositions(g: QueryGraph, n: QueryNode, i: nat)
    requires n in g.nodes && i < |g.next[n]| && g.next[n][i] != null
    ensures IndexOf<QueryNode?>(g.next[n], g.next[n][i]) == i
    ensures g.next[n][i] in g.nodes && Slot(g, n, i) < |g.previous[g.next[n][i]]|
    ensures forall j :: 0 <= j < |g.previous[g.next[n][i]]| && g.previous[g.next[n][i]][j] == n ==> j == Slot(g, n, i)
  {
    assert Satisfies(g, LinkEndsAgree) && Satisfies(g, NoParallelLinks);
    var t := g.next[n][i];
    assert t in g.next[n] && n in g.previous[t];
    var first := IndexOf<QueryNode?>(g.next[n], t);
    assert g.next[n][first] == t && LinkIsOwn(g.next[n], i);
    assert g.previous[t][Slot(g, n, i)] == n && LinkIsOwn(g.previous[t], Slot(g, n, i));
  }

  /** The nodes outside the run that `n` feeds still have all their predecessors. */
  ghost predicate TargetsLinked(g: QueryGraph, members: seq<QueryNode>, n: QueryNode)
    requires n in g.nodes
    reads g.nodes
  {
    forall i :: 0 <= i < |g.next[n]| && g.next[n][i] != null && g.next[n][i] !in members ==>
      g.next[n][i].previousNodes == g.previous[g.next[n][i]]
  }

  /** Cuts output `i` of `node`; the result is the link through which its memory is handed on, if it is. */
  method CutOutput(node: QueryNode, i: nat, current: seq<QueryNode>, reuse: ReusePolicy, ghost g: QueryGraph)
    returns (targets: seq<(string, nat)>)
    requires node in g.nodes
    requires i < |node.nextNodes| == |node.outputFiles| == |g.next[node]|
    requires node.nextNodes[i] == g.next[node][i] && node.outputFiles[i] == g.outputs[node][i]
    requires LinkKindOf(g, reuse, current, node, i) in {Memory, File} ==>
               var t := node.nextNodes[i];
               t.previousNodes == g.previous[t] && |t.inputFiles| == |g.inputs[t]|
    modifies node`nextNodes, node`outputFiles, g.nodes`inputFiles
    ensures node.nextNodes == old(node.nextNodes)[i := NextAfterCut(g, reuse, current, node, i)]
    ensures node.outputFiles == old(node.outputFiles)[i := FileAfterCut(g, reuse, current, node, i)]
    ensures forall t :: t in g.nodes ==>
              t.inputFiles == if LinkKindOf(g, reuse, current, node, i) == File && t == g.next[node][i]
                              then old(t.inputFiles)[Slot(g, node, i) := FileAfterCut(g, reuse, current, node, i)]
                              else old(t.inputFiles)
    ensures targets == if LinkKindOf(g, reuse, current, node, i) == Memory
                       then [(g.next[node][i].name, Slot(g, node, i))] else []
  {
    targets := [];
    var next := node.nextNodes[i];
    if next == null {
      if node.outputFiles[i] == "" {
        node.outputFiles := node.outputFiles[i := AutomaticFileName(node.name, i)];
      }
    } else if IsNodeMissingFromTheVector(next, current) {
      LinkPositions(g, node, i);
      var location := FindPreviousNodeLocation(next.previousNodes, node);
      assert location.Some?;
      var fileName := node.outputFiles[i];
      if fileName == "" && reuse(node, next) {
        targets := [(next.name, location.value)];
      } else {
        if fileName == "" {
          fileName := AutomaticFileName(node.name, i);
          node.outputFiles := node.outputFiles[i := fileName];
        }
        next.inputFiles := next.inputFiles[location.value := fileName];
        node.nextNodes := node.nextNodes[i := null];
      }
    }
  }

  /** Cutting output `i` fills in the one input it feeds. */
  lemma InputFilesStep(g: QueryGraph, reuse: ReusePolicy, homes: Homes, members: seq<QueryNode>, n: QueryNode, i: nat,
                       t: QueryNode, before: seq<string>, after: seq<string>)
    requires t in g.nodes && n in g.nodes && n !in homes && i < |g.next[n]|
    requires InputFilesUpTo(g, reuse, homes, members, n, i, t, before)
    requires after == if LinkKindOf(g, reuse, members, n, i) == File && t == g.next[n][i]
                      then before[Slot(g, n, i) := FileAfterCut(g, reuse, members, n, i)] else before
    ensures InputFilesUpTo(g, reuse, homes, members, n, i + 1, t, after)
  {
    if g.next[n][i] != null {
      LinkPositions(g, n, i);
    }
    assert Satisfies(g, LinkEndsAgree);
    forall j | 0 <= j < |g.previous[t]| && g.previous[t][j] == n && IndexOf<QueryNode?>(g.next[n], t) == i
      ensures t == g.next[n][i] && j == Slot(g, n, i)
    {
      assert n in g.previous[t];
    }
  }

  lemma OutputsStep(g: QueryGraph, reuse: ReusePolicy, members: seq<QueryNode>, n: QueryNode, i: nat,
                    next: seq<QueryNode?>, files: seq<string>)
    requires n in g.nodes && i < |g.next[n]|
    requires OutputsAre(g, reuse, members, n, i, next, files)
    ensures OutputsAre(g, reuse, members, n, i + 1, next[i := NextAfterCut(g, reuse, members, n, i)],
                       files[i := FileAfterCut(g, reuse, members, n, i)])
  {
  }

  /** The outputs of `node` before output `limit` are cut, on both ends, and `links` are the memory links among them. */
  ghost predicate OutputsCut(g: QueryGraph, reuse: ReusePolicy, homes: Homes, members: seq<QueryNode>, node: QueryNode,
                             limit: int, links: map<nat, seq<(string, nat)>>)
    requires node in g.nodes
    reads g.nodes
  {
    && 0 <= limit <= |g.next[node]|
    && OutputsAre(g, reuse, members, node, limit, node.nextNodes, node.outputFiles)
    && (forall t {:trigger InputFilesUpTo(g, reuse, homes, members, node, limit, t, t.inputFiles)} ::
          t in g.nodes ==> InputFilesUpTo(g, reuse, homes, members, node, limit, t, t.inputFiles))
    && links == NodeLinks(g, reuse, members, node, limit)
  }

  /** One step of `CutOutputs`, with what is known of all nodes before and after it. */
  method CutNextOutput(node: QueryNode, i: nat, current: seq<QueryNode>, links: map<nat, seq<(string, nat)>>,
                       reuse: ReusePolicy, ghost g: QueryGraph, ghost homes: Homes)
    returns (extended: map<nat, seq<(string, nat)>>)
    requires node in g.nodes && node !in homes && i < |g.next[node]|
    requires OutputsCut(g, reuse, homes, current, node, i, links)
    requires TargetsLinked(g, current, node)
    modifies node`nextNodes, node`outputFiles, g.nodes`inputFiles
    ensures OutputsCut(g, reuse, homes, current, node, i + 1, extended)
  {
    if node.nextNodes[i] != null {
      assert InputFilesUpTo(g, reuse, homes, current, node, i, node.nextNodes[i], node.nextNodes[i].inputFiles);
    }
    var targets := CutOutput(node, i, current, reuse, g);
    extended := if targets != [] then links[i := targets] else links;
    OutputsStep(g, reuse, current, node, i, old(node.nextNodes), old(node.outputFiles));
    forall t | t in g.nodes ensures InputFilesUpTo(g, reuse, homes, current, node, i + 1, t, t.inputFiles) {
      assert old(InputFilesUpTo(g, reuse, homes, current, node, i, t, t.inputFiles));
      InputFilesStep(g, reuse, homes, current, node, i, t, old(t.inputFiles), t.inputFiles);
    }
  }

  /** Cuts the outputs of `node`; the result holds the links through which memory is handed on. */
  method CutOutputs(node: QueryNode, current: seq<QueryNode>, reuse: ReusePolicy, ghost g: QueryGraph,
                    ghost homes: Homes)
    returns (targetMaps: map<nat, seq<(string, nat)>>)
    requires node in g.nodes && node !in homes
    requires OutputsCut(g, reuse, homes, current, node, 0, map[])
    requires TargetsLinked(g, current, node)
    modifies node`nextNodes, node`outputFiles, g.nodes`inputFiles
    ensures OutputsCut(g, reuse, homes, current, node, |g.next[node]|, targetMaps)
  {
    targetMaps := map[];
    for i := 0 to |node.nextNodes|
      invariant OutputsCut(g, reuse, homes, current, node, i, targetMaps)
    {
      targetMaps := CutNextOutput(node, i, current, targetMaps, reuse, g, homes);
    }
  }

  lemma OutputsAllCut(g: QueryGraph, reuse: ReusePolicy, homes: Homes, members: seq<QueryNode>, n: QueryNode,
                      t: QueryNode, files: seq<string>)
    requires t in g.nodes && n in g.nodes && n !in homes
    requires InputFilesUpTo(g, reuse, homes, members, n, |g.next[n]|, t, files)
    ensures InputFilesAre(g, reuse, homes[n := members], t, files)
  {
  }

  lemma NoOutputCutYet(g: QueryGraph, reuse: ReusePolicy, homes: Homes, members: seq<QueryNode>, n: QueryNode)
    requires n in g.nodes && n.nextNodes == g.next[n] && n.outputFiles == g.outputs[n] && InputsCut(g, reuse, homes)
    ensures OutputsCut(g, reuse, homes, members, n, 0, map[])
  {
    forall t | t in g.nodes ensures InputFilesUpTo(g, reuse, homes, members, n, 0, t, t.inputFiles) {
      assert InputFilesAre(g, reuse, homes, t, t.inputFiles);
    }
  }

  lemma InputsFollow(g: QueryGraph, reuse: ReusePolicy, homes: Homes, members: seq<QueryNode>, n: QueryNode,
                     links: map<nat, seq<(string, nat)>>)
    requires n in g.nodes && n !in homes && OutputsCut(g, reuse, homes, members, n, |g.next[n]|, links)
    ensures InputsCut(g, reuse, homes[n := members])
  {
    forall t | t in g.nodes ensures InputFilesAre(g, reuse, homes[n := members], t, t.inputFiles) {
      assert InputFilesUpTo(g, reuse, homes, members, n, |g.next[n]|, t, t.inputFiles);
      OutputsAllCut(g, reuse, homes, members, n, t, t.inputFiles);
    }
  }

  /** Forgets the predecessors outside the run. */
  method CutInputs(node: QueryNode, current: seq<QueryNode>)
    modifies node`previousNodes
    ensures |node.previousNodes| == |old(node.previousNodes)|
    ensures forall j :: 0 <= j < |node.previousNodes| ==>
              node.previousNodes[j] == if old(node.previousNodes)[j] != null && old(node.previousNodes)[j] in current
                                       then old(node.previousNodes)[j] else null
  {
    for j := 0 to |node.previousNodes|
      invariant |node.previousNodes| == |old(node.previousNodes)|
      invariant forall k :: 0 <= k < |node.previousNodes| ==>
                  node.previousNodes[k] ==
                  if k >= j || (old(node.previousNodes)[k] != null && old(node.previousNodes)[k] in current)
                  then old(node.previousNodes)[k] else null
    {
      if IsNodeMissingFromTheVector(node.previousNodes[j], current) {
        node.previousNodes := node.previousNodes[j := null];
      }
    }
  }

  /** Cuts one node of the run off, and records the links through which it hands memory on. */
  method CutNode(node: QueryNode, current: seq<QueryNode>, links: LinkMap, reuse: ReusePolicy, ghost g: QueryGraph,
                 ghost homes: Homes)
    returns (extended: LinkMap)
    requires node in g.nodes && node !in homes
    requires CutState(g, reuse, homes) && LinksRecorded(g, reuse, homes, links)
    requires TargetsUncutBeyond(g, homes, current, node)
    modifies node`nextNodes, node`outputFiles, node`previousNodes, g.nodes`inputFiles
    ensures CutState(g, reuse, homes[node := current])
    ensures LinksRecorded(g, reuse, homes[node := current], extended)
  {
    assert NodeState(g, reuse, homes, node);
    forall i | 0 <= i < |g.next[node]| && g.next[node][i] != null && g.next[node][i] !in current
      ensures g.next[node][i].previousNodes == g.previous[g.next[node][i]]
    {
      assert NodeState(g, reuse, homes, g.next[node][i]);
    }
    NoOutputCutYet(g, reuse, homes, current, node);
    var targetMaps := CutOutputs(node, current, reuse, g, homes);
    InputsFollow(g, reuse, homes, current, node, targetMaps);
    CutInputs(node, current);
    LinksRecordedStep(g, reuse, homes, current, node, links, targetMaps);
    extended := if targetMaps != map[] then links[node.name := targetMaps] else links;
    assert NodeCut(g, reuse, current, node);
    forall n | n in g.nodes ensures NodeState(g, reuse, homes[node := current], n) {
      assert n != node ==> old(NodeState(g, reuse, homes, n));
    }
  }

  lemma LinksRecordedStep(g: QueryGraph, reuse: ReusePolicy, homes: Homes, members: seq<QueryNode>, n: QueryNode,
                          links: LinkMap, own: map<nat, seq<(string, nat)>>)
    requires n in g.nodes && n !in homes
    requires LinksRecorded(g, reuse, homes, links)
    requires own == NodeLinks(g, reuse, members, n, |g.next[n]|)
    ensures n.name !in links
    ensures LinksRecorded(g, reuse, homes[n := members], if own != map[] then links[n.name := own] else links)
  {
    assert Satisfies(g, NamesAreUnique) && NameIsOwn(g.nodes, n);
    var homes', links' := homes[n := members], if own != map[] then links[n.name := own] else links;
    forall m | m in g.nodes && m in homes'
      ensures var mine := NodeLinks(g, reuse, homes'[m], m, |g.next[m]|);
              if mine == map[] then m.name !in links' else m.name in links' && links'[m.name] == mine
    {
      if m != n {
        assert m.name != n.name;
      }
    }
    forall name | name in links' ensures exists m :: m in g.nodes && m in homes' && m.name == name {
      if name != n.name {
        var m :| m in g.nodes && m in homes && m.name == name;
      }
    }
  }

  /** `homes` with the first `k` nodes of the run added. */
  ghost function Joined(homes: Homes, current: seq<QueryNode>, k: nat): Homes
    requires k <= |current|
  {
    if k == 0 then homes else Joined(homes, current, k - 1)[current[k - 1] := current]
  }

  lemma {:induction false} JoinedAt(homes: Homes, current: seq<QueryNode>, k: nat, n: QueryNode)
    requires k <= |current|
    ensures n in Joined(homes, current, k) <==> n in homes || n in current[..k]
    ensures n in current[..k] ==> Joined(homes, current, k)[n] == current
    ensures n in homes && n !in current[..k] ==> Joined(homes, current, k)[n] == homes[n]
  {
    if k > 0 {
      JoinedAt(homes, current, k - 1, n);
      assert current[..k] == current[..k - 1] + [current[k - 1]];
    }
  }

  /** The run is made of uncut nodes, and all nodes they feed are uncut. */
  ghost predicate RunUncut(g: QueryGraph, homes: Homes, current: seq<QueryNode>)
  {
    && NoDuplicates(current)
    && forall n :: n in current ==> n in g.nodes && n !in homes && TargetsUncut(g, homes, n)
  }

  ghost predicate TargetsUncut(g: QueryGraph, homes: Homes, n: QueryNode)
    requires n in g.nodes
  {
    forall i :: 0 <= i < |g.next[n]| && g.next[n][i] != null ==> g.next[n][i] !in homes
  }

  ghost predicate TargetsUncutBeyond(g: QueryGraph, homes: Homes, current: seq<QueryNode>, n: QueryNode)
    requires n in g.nodes
  {
    forall i :: 0 <= i < |g.next[n]| && g.next[n][i] != null && g.next[n][i] !in current ==> g.next[n][i] !in homes
  }

  lemma NextOfRunIsUncut(g: QueryGraph, homes: Homes, current: seq<QueryNode>, k: nat)
    requires RunUncut(g, homes, current) && k < |current|
    ensures current[k] in g.nodes && current[k] !in Joined(homes, current, k)
    ensures TargetsUncutBeyond(g, Joined(homes, current, k), current, current[k])
  {
    assert current[k] in current;
    JoinedAt(homes, current, k, current[k]);
    var n := current[k];
    forall i | 0 <= i < |g.next[n]| && g.next[n][i] != null && g.next[n][i] !in current
      ensures g.next[n][i] !in Joined(homes, current, k)
    {
      JoinedAt(homes, current, k, g.next[n][i]);
    }
  }

  /** The runs in `homes` and the first `k` nodes of the current run are cut off, and their memory links recorded. */
  ghost predicate RunCut(g: QueryGraph, reuse: ReusePolicy, homes: Homes, current: seq<QueryNode>, k: int,
                         links: LinkMap)
    reads g.nodes
  {
    && 0 <= k <= |current|
    && CutState(g, reuse, Joined(homes, current, k))
    && LinksRecorded(g, reuse, Joined(homes, current, k), links)
  }

  /** Cuts off node `k` of the run. */
  method CutNextNode(k: nat, current: seq<QueryNode>, links: LinkMap, reuse: ReusePolicy, ghost g: QueryGraph,
                     ghost homes: Homes)
    returns (extended: LinkMap)
    requires k < |current| && RunUncut(g, homes, current) && RunCut(g, reuse, homes, current, k, links)
    modifies g.nodes
    ensures RunCut(g, reuse, homes, current, k + 1, extended)
  {
    NextOfRunIsUncut(g, homes, current, k);
    extended := CutNode(current[k], current, links, reuse, g, Joined(homes, current, k));
  }

  /** Cuts off a whole run. */
  method CheckExternalLinks(current: seq<QueryNode>, links: LinkMap, reuse: ReusePolicy, ghost g: QueryGraph,
                            ghost homes: Homes)
    returns (extended: LinkMap)
    requires RunUncut(g, homes, current) && RunCut(g, reuse, homes, current, 0, links)
    modifies g.nodes
    ensures RunCut(g, reuse, homes, current, |current|, extended)
  {
    hide RunUncut, RunCut, WellFormed;
    extended := links;
    for k := 0 to |current|
      invariant RunCut(g, reuse, homes, current, k, extended)
    {
      extended := CutNextNode(k, current, extended, reuse, g, homes);
    }
  }
}
