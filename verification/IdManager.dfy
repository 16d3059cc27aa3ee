/** Stream IDs for the nodes of a run: 16 of them, handed along the links inside the run. */
module IdManager {
  import opened Options
  import opened Sequences
  import opened AccelerationConstants
  import opened QueryNodes

  type IdMap = map<string, seq<nat>>

  /** The IDs not handed out yet, when `used` have been: a stack with the smallest on top. */
  ghost function Remaining(used: nat): seq<nat>
    requires used <= MAX_IO_STREAM_COUNT
  {
    seq(MAX_IO_STREAM_COUNT - used, i requires 0 <= i < MAX_IO_STREAM_COUNT - used => MAX_IO_STREAM_COUNT - 1 - i)
  }

  method SetUpAvailableIDs() returns (available: seq<nat>)
    ensures available == Remaining(0)
  {
    available := [];
    var index := MAX_IO_STREAM_COUNT - 1;
    while index >= 0
      invariant -1 <= index < MAX_IO_STREAM_COUNT
      invariant |available| == MAX_IO_STREAM_COUNT - 1 - index
      invariant forall i :: 0 <= i < |available| ==> available[i] == MAX_IO_STREAM_COUNT - 1 - i
    {
      available := available + [index];
      index := index - 1;
    }
  }

  /** Input `j` of `m` takes the stream of output `o` of `p`. */
  ghost predicate Feeds(p: QueryNode, o: nat, m: QueryNode, j: nat)
    reads p, m
  {
    && j < |m.inputFiles| && j < |m.previousNodes| && m.previousNodes[j] == p
    && IndexOf<QueryNode?>(p.nextNodes, m) == o
  }

  /** One of the first `limit` inputs of `m` takes the stream of output `o` of `p`. */
  ghost predicate TakenBy(p: QueryNode, o: nat, m: QueryNode, limit: nat)
    reads p, m
  {
    exists j :: 0 <= j < limit && Feeds(p, o, m, j)
  }

  ghost predicate Consumed(processed: seq<QueryNode>, p: QueryNode, o: nat)
    reads processed, p
  {
    exists m :: m in processed && TakenBy(p, o, m, |m.inputFiles|)
  }

  /** The node can be given IDs after `processed`: its producers in the run come earlier, each on one link. */
  ghost predicate InOrder(processed: seq<QueryNode>, n: QueryNode)
    reads processed, n
  {
    && n !in processed
    && |n.inputFiles| <= |n.previousNodes| && NoRepeatedLink(n.previousNodes)
    && forall i :: 0 <= i < |n.inputFiles| && n.previousNodes[i] != null ==>
         var p := n.previousNodes[i];
         p in processed && n in p.nextNodes && IndexOf<QueryNode?>(p.nextNodes, n) < |p.outputFiles|
  }

  /** The nodes of a run as the scheduler leaves them: in topological order, among nodes told apart by name. */
  ghost predicate RunShape(all: set<QueryNode>, nodes: seq<QueryNode>)
    reads all, nodes
  {
    && UniqueNames(all)
    && (forall n :: n in nodes ==> n in all && LinksWithin(all, n))
    && forall k :: 0 <= k < |nodes| ==> InOrder(nodes[..k], nodes[k])
  }

  ghost function ExternalInputs(n: QueryNode, limit: nat): (count: nat)
    requires limit <= |n.previousNodes|
    reads n
  {
    if limit == 0 then 0
    else ExternalInputs(n, limit - 1) + if n.previousNodes[limit - 1] == null then 1 else 0
  }

  lemma {:induction false} ExternalInputsGrow(n: QueryNode, less: nat, more: nat)
    requires less <= more <= |n.previousNodes|
    ensures ExternalInputs(n, less) <= ExternalInputs(n, more)
  {
    if less < more {
      ExternalInputsGrow(n, less, more - 1);
    }
  }

  /** How many new IDs a node needs: one per external input, one per output beyond its inputs. */
  ghost function Demand(n: QueryNode): nat
    requires |n.inputFiles| <= |n.previousNodes|
    reads n
  {
    ExternalInputs(n, |n.inputFiles|) + if |n.outputFiles| > |n.inputFiles| then |n.outputFiles| - |n.inputFiles| else 0
  }

  ghost function TotalDemand(nodes: seq<QueryNode>): nat
    requires forall n :: n in nodes ==> |n.inputFiles| <= |n.previousNodes|
    reads nodes
  {
    if nodes == [] then 0 else TotalDemand(nodes[..|nodes| - 1]) + Demand(nodes[|nodes| - 1])
  }

  /** The streams that are not consumed yet: the producer and output each leaves, and its ID. */
  type Streams = map<(QueryNode, nat), nat>

  /** No two entries share an ID, and all IDs have been handed out. */
  ghost predicate OwnIds(streams: Streams, used: nat) {
    && (forall s :: s in streams ==> streams[s] < used)
    && forall s, t :: s in streams && t in streams && s != t ==> streams[s] != streams[t]
  }

  ghost predicate HasIds(n: QueryNode, ids: IdMap, count: nat) {
    n.name in ids && |ids[n.name]| == count
  }

  /** Every output not taken by `processed`, nor by one of the first `limit` inputs of `n`, is among the streams. */
  ghost predicate Tracks(processed: seq<QueryNode>, n: QueryNode, limit: nat, outputIds: IdMap, streams: Streams)
    reads processed, n
  {
    && (forall p :: p in processed ==> HasIds(p, outputIds, |p.outputFiles|))
    && forall p, o: nat {:trigger Consumed(processed, p, o)} :: p in processed && o < |p.outputFiles|
         && !Consumed(processed, p, o) && !TakenBy(p, o, n, limit)
         ==> (p, o) in streams && streams[(p, o)] == outputIds[p.name][o]
  }

  method FindStreamIndex(streams: seq<QueryNode?>, node: QueryNode, ghost all: set<QueryNode>)
    returns (index: Option<nat>)
    requires UniqueNames(all) && node in all
    requires forall i :: 0 <= i < |streams| && streams[i] != null ==> streams[i] in all
    ensures index == if node in streams then Some(IndexOf<QueryNode?>(streams, node)) else None
  {
    assert NameIsOwn(all, node);
    for i := 0 to |streams|
      invariant i <= IndexOf<QueryNode?>(streams, node)
    {
      if streams[i] != null {
        var candidate: QueryNode := streams[i];
        if candidate.SameValue(node) {
          return Some(i);
        }
      }
    }
    return None;
  }

  /** The IDs in `ids` are pairwise different, handed out, and not those of any stream. */
  ghost predicate OwnInputs(ids: seq<nat>, streams: Streams, used: nat) {
    && (forall i :: 0 <= i < |ids| ==> ids[i] < used)
    && NoDuplicates(ids)
    && forall i, s :: 0 <= i < |ids| && s in streams ==> streams[s] != ids[i]
  }

  /** Input `i` of `n` has the ID of its producer's output, or one that was not handed out `before`. */
  ghost predicate InputLinked(n: QueryNode, i: nat, id: nat, outputIds: IdMap, before: nat)
    requires i < |n.previousNodes|
    reads n, n.previousNodes[i]
  {
    if n.previousNodes[i] == null then before <= id
    else
      var p := n.previousNodes[i];
      var o := IndexOf<QueryNode?>(p.nextNodes, n);
      p.name in outputIds && o < |outputIds[p.name]| && id == outputIds[p.name][o]
  }

  /** Where the loop over the inputs of a node is when they have IDs `inputs` and `now` IDs have been handed out. */
  ghost predicate InputState(node: QueryNode, inputs: seq<nat>, outputIds: IdMap, processed: seq<QueryNode>,
                             before: nat, now: nat, streams: Streams)
    requires InOrder(processed, node)
    reads node, processed, node.previousNodes
  {
    && before <= now && |inputs| <= |node.inputFiles|
    && (forall i {:trigger inputs[i]} :: 0 <= i < |inputs| ==> InputLinked(node, i, inputs[i], outputIds, before))
    && Tracks(processed, node, |inputs|, outputIds, streams)
    && OwnIds(streams, now) && OwnInputs(inputs, streams, now)
  }

  lemma TakeStream(node: QueryNode, inputs: seq<nat>, outputIds: IdMap, processed: seq<QueryNode>,
                   before: nat, now: nat, streams: Streams, p: QueryNode, o: nat)
    requires InOrder(processed, node) && InputState(node, inputs, outputIds, processed, before, now, streams)
    requires |inputs| < |node.inputFiles| && node.previousNodes[|inputs|] == p
    requires o == IndexOf<QueryNode?>(p.nextNodes, node)
    ensures p.name in outputIds && o < |outputIds[p.name]|
    ensures InputState(node, inputs + [outputIds[p.name][o]], outputIds, processed, before, now, streams - {(p, o)})
  {
    var i := |inputs|;
    assert p in processed && o < |p.outputFiles|;
    assert LinkIsOwn(node.previousNodes, i);
    assert HasIds(p, outputIds, |p.outputFiles|);
    assert !Consumed(processed, p, o);
    assert (p, o) in streams && streams[(p, o)] == outputIds[p.name][o];
    var rest := streams - {(p, o)};
    assert Feeds(p, o, node, i);
    forall q, u: nat | q in processed && u < |q.outputFiles| && !Consumed(processed, q, u)
         && !TakenBy(q, u, node, i + 1)
      ensures (q, u) in rest && rest[(q, u)] == outputIds[q.name][u]
    {
      assert (q, u) != (p, o);
    }
  }

  lemma TakeNew(node: QueryNode, inputs: seq<nat>, outputIds: IdMap, processed: seq<QueryNode>, before: nat, now: nat,
                streams: Streams)
    requires InOrder(processed, node) && InputState(node, inputs, outputIds, processed, before, now, streams)
    requires |inputs| < |node.inputFiles| && node.previousNodes[|inputs|] == null
    ensures InputState(node, inputs + [now], outputIds, processed, before, now + 1, streams)
  {
  }

  /** All links lead to nodes told apart by name. */
  ghost predicate LinksWithin(all: set<QueryNode>, n: QueryNode)
    reads n
  {
    forall i :: 0 <= i < |n.nextNodes| && n.nextNodes[i] != null ==> n.nextNodes[i] in all
  }

  /** One input: the ID of the producer's stream, or a new one if there is one left. */
  method AllocateInputID(node: QueryNode, outputIds: IdMap, available: seq<nat>, inputs: seq<nat>,
                         ghost all: set<QueryNode>, ghost processed: seq<QueryNode>, ghost before: nat, ghost now: nat,
                         ghost streams: Streams)
    returns (ok: bool, more: seq<nat>, rest: seq<nat>, ghost now': nat, ghost left: Streams)
    requires UniqueNames(all) && node in all && InOrder(processed, node)
    requires |inputs| < |node.inputFiles|
    requires forall p :: p in processed ==> LinksWithin(all, p)
    requires now <= MAX_IO_STREAM_COUNT && available == Remaining(now)
    requires InputState(node, inputs, outputIds, processed, before, now, streams)
    ensures now' == if node.previousNodes[|inputs|] == null then now + 1 else now
    ensures ok <==> now' <= MAX_IO_STREAM_COUNT
    ensures ok ==> rest == Remaining(now')
    ensures ok ==> |more| == |inputs| + 1 && inputs <= more
    ensures ok ==> InputState(node, more, outputIds, processed, before, now', left)
  {
    ok, more, rest, now', left := true, inputs, available, now, streams;
    var previous := node.previousNodes[|inputs|];
    if previous != null {
      assert LinksWithin(all, previous);
      var index := FindStreamIndex(previous.nextNodes, node, all);
      assert index.Some?;
      TakeStream(node, inputs, outputIds, processed, before, now, left, previous, index.value);
      more := inputs + [outputIds[previous.name][index.value]];
      left := left - {(previous, index.value)};
    } else {
      now' := now + 1;
      if rest == [] {
        return false, inputs, rest, now', left;
      }
      TakeNew(node, inputs, outputIds, processed, before, now, left);
      more := inputs + [rest[|rest| - 1]];
      rest := rest[..|rest| - 1];
    }
  }

  method AllocateInputIDs(node: QueryNode, outputIds: IdMap, available: seq<nat>, ghost all: set<QueryNode>,
                          ghost processed: seq<QueryNode>, ghost before: nat, ghost streams: Streams)
    returns (ok: bool, inputs: seq<nat>, outputs: seq<nat>, rest: seq<nat>, ghost left: Streams)
    requires UniqueNames(all) && node in all && InOrder(processed, node)
    requires forall p :: p in processed ==> LinksWithin(all, p)
    requires before <= MAX_IO_STREAM_COUNT && available == Remaining(before)
    requires InputState(node, [], outputIds, processed, before, before, streams)
    ensures ok <==> before + ExternalInputs(node, |node.inputFiles|) <= MAX_IO_STREAM_COUNT
    ensures ok ==> rest == Remaining(before + ExternalInputs(node, |node.inputFiles|)) && |inputs| == |node.inputFiles|
    ensures ok ==> InputState(node, inputs, outputIds, processed, before,
                              before + ExternalInputs(node, |node.inputFiles|), left)
    ensures ok ==> outputs == inputs[..if |node.outputFiles| < |inputs| then |node.outputFiles| else |inputs|]
  {
    ok, inputs, outputs, rest, left := true, [], [], available, streams;
    ghost var now := before;
    while |inputs| < |node.inputFiles|
      invariant ok && |inputs| <= |node.inputFiles|
      invariant now == before + ExternalInputs(node, |inputs|) <= MAX_IO_STREAM_COUNT && rest == Remaining(now)
      invariant InputState(node, inputs, outputIds, processed, before, now, left)
      invariant outputs == inputs[..if |node.outputFiles| < |inputs| then |node.outputFiles| else |inputs|]
      decreases |node.inputFiles| - |inputs|
    {
      ghost var i := |inputs|;
      ok, inputs, rest, now, left := AllocateInputID(node, outputIds, rest, inputs, all, processed, before, now, left);
      if !ok {
        ExternalInputsGrow(node, i + 1, |node.inputFiles|);
        return;
      }
      if |inputs| <= |node.outputFiles| {
        outputs := outputs + [inputs[|inputs| - 1]];
      }
    }
  }

  method AllocateLeftoverOutputIDs(node: QueryNode, outputs: seq<nat>, available: seq<nat>, ghost used: nat)
    returns (ok: bool, all: seq<nat>, rest: seq<nat>)
    requires used <= MAX_IO_STREAM_COUNT && available == Remaining(used)
    requires |outputs| == if |node.outputFiles| < |node.inputFiles| then |node.outputFiles| else |node.inputFiles|
    ensures ok <==> used + |node.outputFiles| - |outputs| <= MAX_IO_STREAM_COUNT
    ensures ok ==>
              && rest == Remaining(used + |node.outputFiles| - |outputs|)
              && |all| == |node.outputFiles| && all[..|outputs|] == outputs
              && forall i :: |outputs| <= i < |all| ==> all[i] == used + i - |outputs|
  {
    ok, all, rest := true, outputs, available;
    var index := |node.inputFiles|;
    while index < |node.outputFiles|
      invariant |outputs| <= |all| <= |node.outputFiles| && (|all| == index || |all| == |outputs| == |node.outputFiles|)
      invariant all[..|outputs|] == outputs
      invariant forall i :: |outputs| <= i < |all| ==> all[i] == used + i - |outputs|
      invariant used + |all| - |outputs| <= MAX_IO_STREAM_COUNT && rest == Remaining(used + |all| - |outputs|)
    {
      if rest == [] {
        return false, [], [];
      }
      all := all + [rest[|rest| - 1]];
      rest := rest[..|rest| - 1];
      index := index + 1;
    }
  }

  /** The outputs of `n` join the streams with the IDs they were given. */
  ghost function WithOutputs(streams: Streams, n: QueryNode, ids: seq<nat>, limit: nat): Streams
    requires limit <= |ids|
  {
    if limit == 0 then streams else WithOutputs(streams, n, ids, limit - 1)[(n, limit - 1) := ids[limit - 1]]
  }

  lemma {:induction false} WithOutputsAt(streams: Streams, n: QueryNode, ids: seq<nat>, limit: nat, s: (QueryNode, nat))
    requires limit <= |ids|
    ensures s in WithOutputs(streams, n, ids, limit) <==> s in streams || (s.0 == n && s.1 < limit)
    ensures s.0 == n && s.1 < limit ==> WithOutputs(streams, n, ids, limit)[s] == ids[s.1]
    ensures s in streams && !(s.0 == n && s.1 < limit) ==> WithOutputs(streams, n, ids, limit)[s] == streams[s]
  {
    if limit > 0 {
      WithOutputsAt(streams, n, ids, limit - 1, s);
    }
  }

  lemma OutputsKeepOwnIds(streams: Streams, n: QueryNode, ids: seq<nat>, used: nat)
    requires OwnIds(streams, used) && OwnInputs(ids, streams, used)
    ensures OwnIds(WithOutputs(streams, n, ids, |ids|), used)
  {
    var more := WithOutputs(streams, n, ids, |ids|);
    forall s, t | s in more && t in more && s != t ensures more[s] < used && more[s] != more[t] {
      WithOutputsAt(streams, n, ids, |ids|, s);
      WithOutputsAt(streams, n, ids, |ids|, t);
    }
    forall s | s in more ensures more[s] < used {
      WithOutputsAt(streams, n, ids, |ids|, s);
    }
  }

  /** The reused and the new IDs of a node's outputs are all different, and not those of other streams. */
  lemma OutputsAreOwn(inputs: seq<nat>, outputs: seq<nat>, reused: nat, streams: Streams, used: nat, now: nat)
    requires OwnIds(streams, used) && OwnInputs(inputs, streams, used)
    requires reused <= |inputs| && reused <= |outputs| && outputs[..reused] == inputs[..reused]
    requires forall i :: reused <= i < |outputs| ==> outputs[i] == used + i - reused
    requires now == used + |outputs| - reused
    ensures OwnInputs(outputs, streams, now) && OwnIds(streams, now)
  {
    forall i | 0 <= i < reused ensures outputs[i] == inputs[i] {
      assert outputs[..reused][i] == inputs[..reused][i];
    }
  }

  /** The IDs of one node, all below `used`: internal inputs share theirs with the producer's output. */
  ghost predicate NodeDone(m: QueryNode, inputIds: IdMap, outputIds: IdMap, used: nat)
    reads m, m.previousNodes
  {
    && |m.inputFiles| <= |m.previousNodes|
    && HasIds(m, inputIds, |m.inputFiles|) && HasIds(m, outputIds, |m.outputFiles|)
    && NoDuplicates(inputIds[m.name]) && NoDuplicates(outputIds[m.name])
    && (forall i :: 0 <= i < |m.inputFiles| ==> inputIds[m.name][i] < used)
    && (forall i :: 0 <= i < |m.outputFiles| ==> outputIds[m.name][i] < used)
    && (forall i :: 0 <= i < |m.inputFiles| && i < |m.outputFiles| ==> outputIds[m.name][i] == inputIds[m.name][i])
    && forall i {:trigger inputIds[m.name][i]} :: 0 <= i < |m.inputFiles| ==>
         InputLinked(m, i, inputIds[m.name][i], outputIds, 0)
  }

  /** Every output nobody in `processed` takes is among the streams, under its ID. */
  ghost predicate Leaves(processed: seq<QueryNode>, outputIds: IdMap, streams: Streams)
    reads processed
  {
    forall p, o: nat {:trigger Consumed(processed, p, o)} ::
      p in processed && o < |p.outputFiles| && !Consumed(processed, p, o) ==>
      && p.name in outputIds && o < |outputIds[p.name]|
      && (p, o) in streams && streams[(p, o)] == outputIds[p.name][o]
  }

  /** Every input from outside the run is among `externals`, under its ID. */
  ghost predicate Enters(processed: seq<QueryNode>, inputIds: IdMap, externals: Streams)
    reads processed
  {
    forall m, i: nat {:trigger (m, i) in externals} ::
      m in processed && i < |m.inputFiles| && i < |m.previousNodes| && m.previousNodes[i] == null ==>
      && m.name in inputIds && i < |inputIds[m.name]|
      && (m, i) in externals && externals[(m, i)] == inputIds[m.name][i]
  }

  /** What the loop over the nodes keeps. */
  ghost predicate Allocated(processed: seq<QueryNode>, inputIds: IdMap, outputIds: IdMap, used: nat,
                            streams: Streams, externals: Streams)
    reads processed, set n, i | n in processed && 0 <= i < |n.previousNodes| :: n.previousNodes[i]
  {
    && (forall m {:trigger NodeDone(m, inputIds, outputIds, used)} :: m in processed ==>
        NodeDone(m, inputIds, outputIds, used))
    && OwnIds(streams, used) && Leaves(processed, outputIds, streams)
    && OwnIds(externals, used) && Enters(processed, inputIds, externals)
  }

  /** Outputs that leave the run have different IDs. */
  ghost predicate LeftoversDiffer(nodes: seq<QueryNode>, outputIds: IdMap)
    reads nodes
  {
    forall p, o: nat, q, u: nat :: p in nodes && q in nodes && o < |p.outputFiles| && u < |q.outputFiles|
         && (p, o) != (q, u)
      && !Consumed(nodes, p, o) && !Consumed(nodes, q, u)
      && p.name in outputIds && o < |outputIds[p.name]| && q.name in outputIds && u < |outputIds[q.name]|
      ==> outputIds[p.name][o] != outputIds[q.name][u]
  }

  /** Inputs from outside the run have different IDs. */
  ghost predicate ExternalsDiffer(nodes: seq<QueryNode>, inputIds: IdMap)
    reads nodes
  {
    forall p, i: nat, q, j: nat :: p in nodes && q in nodes && (p, i) != (q, j)
      && i < |p.inputFiles| && i < |p.previousNodes| && p.previousNodes[i] == null
      && j < |q.inputFiles| && j < |q.previousNodes| && q.previousNodes[j] == null
      && p.name in inputIds && i < |inputIds[p.name]| && q.name in inputIds && j < |inputIds[q.name]|
      ==> inputIds[p.name][i] != inputIds[q.name][j]
  }

  ghost function WithInputs(externals: Streams, n: QueryNode, ids: seq<nat>, limit: nat): Streams
    requires limit <= |ids| && limit <= |n.previousNodes|
    reads n
  {
    if limit == 0 then externals
    else if n.previousNodes[limit - 1] != null then WithInputs(externals, n, ids, limit - 1)
    else WithInputs(externals, n, ids, limit - 1)[(n, limit - 1) := ids[limit - 1]]
  }

  lemma {:induction false} WithInputsAt(externals: Streams, n: QueryNode, ids: seq<nat>, limit: nat,
                                        s: (QueryNode, nat))
    requires limit <= |ids| && limit <= |n.previousNodes|
    ensures s in WithInputs(externals, n, ids, limit) <==>
            s in externals || (s.0 == n && s.1 < limit && n.previousNodes[s.1] == null)
    ensures s in WithInputs(externals, n, ids, limit) ==>
              WithInputs(externals, n, ids, limit)[s] ==
              if s.0 == n && s.1 < limit && n.previousNodes[s.1] == null then ids[s.1] else externals[s]
  {
    if limit > 0 {
      WithInputsAt(externals, n, ids, limit - 1, s);
    }
  }

  /** The external inputs of one more node have IDs of their own. */
  lemma InputsKeepOwnIds(externals: Streams, n: QueryNode, ids: seq<nat>, before: nat, now: nat)
    requires |ids| <= |n.previousNodes| && OwnIds(externals, before) && before <= now
    requires NoDuplicates(ids) && forall i :: 0 <= i < |ids| ==> ids[i] < now
    requires forall i :: 0 <= i < |ids| && n.previousNodes[i] == null ==> before <= ids[i]
    ensures OwnIds(WithInputs(externals, n, ids, |ids|), now)
  {
    var more := WithInputs(externals, n, ids, |ids|);
    forall s, t | s in more && t in more && s != t ensures more[s] != more[t] {
      WithInputsAt(externals, n, ids, |ids|, s);
      WithInputsAt(externals, n, ids, |ids|, t);
    }
    forall s | s in more ensures more[s] < now {
      WithInputsAt(externals, n, ids, |ids|, s);
    }
  }

  /** `outputs` are the IDs of the inputs as far as they go, then new ones. */
  ghost predicate OutputsFrom(node: QueryNode, inputs: seq<nat>, outputs: seq<nat>, now: nat)
    reads node
  {
    var reused := if |node.outputFiles| < |inputs| then |node.outputFiles| else |inputs|;
    && |outputs| == |node.outputFiles| && outputs[..reused] == inputs[..reused]
    && forall i :: reused <= i < |outputs| ==> outputs[i] == now + i - reused
  }

  lemma {:induction false} NodeStays(m: QueryNode, inputIds: IdMap, outputIds: IdMap, used: nat, name: string,
                                     inputs: seq<nat>, outputs: seq<nat>, now: nat)
    requires NodeDone(m, inputIds, outputIds, used) && used <= now
    requires m.name != name && name !in outputIds
    ensures NodeDone(m, inputIds[name := inputs], outputIds[name := outputs], now)
  {
    var outputIds' := outputIds[name := outputs];
    forall i | 0 <= i < |m.inputFiles| ensures InputLinked(m, i, inputIds[m.name][i], outputIds', 0) {
      assert InputLinked(m, i, inputIds[m.name][i], outputIds, 0);
    }
  }

  lemma NodeIsDone(node: QueryNode, inputIds: IdMap, outputIds: IdMap, processed: seq<QueryNode>, before: nat, now: nat,
                   left: Streams, inputs: seq<nat>, outputs: seq<nat>, end: nat)
    requires InOrder(processed, node) && InputState(node, inputs, outputIds, processed, before, now, left)
    requires |inputs| == |node.inputFiles| && OutputsFrom(node, inputs, outputs, now)
    requires end == now + if |node.outputFiles| > |inputs| then |node.outputFiles| - |inputs| else 0
    requires node.name !in outputIds
    ensures NodeDone(node, inputIds[node.name := inputs], outputIds[node.name := outputs], end)
    ensures OwnInputs(outputs, left, end) && OwnIds(left, end)
  {
    var reused := if |node.outputFiles| < |inputs| then |node.outputFiles| else |inputs|;
    OutputsAreOwn(inputs, outputs, reused, left, now, end);
    forall i | 0 <= i < reused ensures outputs[i] == inputs[i] {
      assert outputs[..reused][i] == inputs[..reused][i];
    }
    forall i | 0 <= i < |inputs| ensures InputLinked(node, i, inputs[i], outputIds[node.name := outputs], 0) {
      assert InputLinked(node, i, inputs[i], outputIds, before);
    }
  }

  /** The streams that leave the run once the outputs of one more node have joined them. */
  lemma LeavesAfter(node: QueryNode, outputIds: IdMap, processed: seq<QueryNode>, left: Streams, outputs: seq<nat>)
    requires InOrder(processed, node) && Tracks(processed, node, |node.inputFiles|, outputIds, left)
    requires forall p :: p in processed ==> p.name != node.name
    requires |outputs| == |node.outputFiles|
    ensures Leaves(processed + [node], outputIds[node.name := outputs], WithOutputs(left, node, outputs, |outputs|))
  {
    var nodes, streams := processed + [node], WithOutputs(left, node, outputs, |outputs|);
    forall p, o: nat | p in nodes && o < |p.outputFiles| && !Consumed(nodes, p, o)
      ensures p.name in outputIds[node.name := outputs] && o < |outputIds[node.name := outputs][p.name]|
      ensures (p, o) in streams && streams[(p, o)] == outputIds[node.name := outputs][p.name][o]
    {
      WithOutputsAt(left, node, outputs, |outputs|, (p, o));
      if p in processed {
        assert node in nodes && !TakenBy(p, o, node, |node.inputFiles|);
        assert forall m :: m in processed ==> m in nodes;
        assert !Consumed(processed, p, o);
        assert HasIds(p, outputIds, |p.outputFiles|);
      }
    }
  }

  lemma EntersAfter(node: QueryNode, inputIds: IdMap, processed: seq<QueryNode>, externals: Streams, inputs: seq<nat>)
    requires InOrder(processed, node) && Enters(processed, inputIds, externals)
    requires forall p :: p in processed ==> p.name != node.name
    requires |inputs| == |node.inputFiles|
    ensures Enters(processed + [node], inputIds[node.name := inputs], WithInputs(externals, node, inputs, |inputs|))
  {
    var nodes, streams := processed + [node], WithInputs(externals, node, inputs, |inputs|);
    forall m, i: nat | m in nodes && i < |m.inputFiles| && i < |m.previousNodes| && m.previousNodes[i] == null
      ensures m.name in inputIds[node.name := inputs] && i < |inputIds[node.name := inputs][m.name]|
      ensures (m, i) in streams && streams[(m, i)] == inputIds[node.name := inputs][m.name][i]
    {
      WithInputsAt(externals, node, inputs, |inputs|, (m, i));
      if m in processed {
        assert (m, i) in externals;
      }
    }
  }

  /** One node: its inputs, then the outputs beyond them. */
  method AllocateForNode(node: QueryNode, inputIds: IdMap, outputIds: IdMap, available: seq<nat>,
                         ghost all: set<QueryNode>, ghost processed: seq<QueryNode>, ghost used: nat,
                         ghost streams: Streams, ghost externals: Streams)
    returns (ok: bool, inputs: seq<nat>, outputs: seq<nat>, rest: seq<nat>, ghost left: Streams)
    requires UniqueNames(all) && node in all && InOrder(processed, node)
    requires forall p :: p in processed ==> LinksWithin(all, p)
    requires used <= MAX_IO_STREAM_COUNT && available == Remaining(used)
    requires Allocated(processed, inputIds, outputIds, used, streams, externals)
    ensures ok <==> used + Demand(node) <= MAX_IO_STREAM_COUNT
    ensures ok ==> rest == Remaining(used + Demand(node)) && |inputs| == |node.inputFiles|
    ensures ok ==> var now := used + ExternalInputs(node, |node.inputFiles|);
                   InputState(node, inputs, outputIds, processed, used, now, left)
                        && OutputsFrom(node, inputs, outputs, now)
  {
    assert Tracks(processed, node, 0, outputIds, streams) by {
      forall p | p in processed ensures HasIds(p, outputIds, |p.outputFiles|) {
        assert NodeDone(p, inputIds, outputIds, used);
      }
    }
    ok, inputs, outputs, rest, left := AllocateInputIDs(node, outputIds, available, all, processed, used, streams);
    if ok {
      ok, outputs, rest := AllocateLeftoverOutputIDs(node, outputs, rest,
                                                     used + ExternalInputs(node, |node.inputFiles|));
    }
  }

  /** The state after one more node. */
  lemma AllocatedAfter(node: QueryNode, inputIds: IdMap, outputIds: IdMap, processed: seq<QueryNode>, used: nat,
                       streams: Streams, externals: Streams, inputs: seq<nat>, outputs: seq<nat>, left: Streams)
    requires InOrder(processed, node) && Allocated(processed, inputIds, outputIds, used, streams, externals)
    requires forall p :: p in processed ==> p.name != node.name
    requires node.name !in outputIds
    requires |inputs| == |node.inputFiles|
    requires var now := used + ExternalInputs(node, |node.inputFiles|);
             InputState(node, inputs, outputIds, processed, used, now, left) && OutputsFrom(node, inputs, outputs, now)
    ensures Allocated(processed + [node], inputIds[node.name := inputs], outputIds[node.name := outputs],
                      used + Demand(node),
                      WithOutputs(left, node, outputs, |outputs|), WithInputs(externals, node, inputs, |inputs|))
  {
    hide OwnIds, Leaves, Enters, Tracks, NodeDone, ExternalInputs;
    var now, end := used + ExternalInputs(node, |node.inputFiles|), used + Demand(node);
    var inputIds', outputIds' := inputIds[node.name := inputs], outputIds[node.name := outputs];
    NodeIsDone(node, inputIds, outputIds, processed, used, now, left, inputs, outputs, end);
    OutputsKeepOwnIds(left, node, outputs, end);
    LeavesAfter(node, outputIds, processed, left, outputs);
    EntersAfter(node, inputIds, processed, externals, inputs);
    forall i | 0 <= i < |inputs| && node.previousNodes[i] == null ensures used <= inputs[i] {
      assert InputLinked(node, i, inputs[i], outputIds, used);
    }
    InputsKeepOwnIds(externals, node, inputs, used, end);
    forall m | m in processed + [node] ensures NodeDone(m, inputIds', outputIds', end) {
      if m in processed {
        assert NodeDone(m, inputIds, outputIds, used);
        NodeStays(m, inputIds, outputIds, used, node.name, inputs, outputs, end);
      }
    }
  }

  lemma {:induction false} DemandGrows(nodes: seq<QueryNode>, k: nat)
    requires k < |nodes| && forall n :: n in nodes ==> |n.inputFiles| <= |n.previousNodes|
    ensures TotalDemand(nodes[..k + 1]) == TotalDemand(nodes[..k]) + Demand(nodes[k])
    ensures TotalDemand(nodes[..k + 1]) <= TotalDemand(nodes)
    decreases |nodes|
  {
    var front := nodes[..|nodes| - 1];
    assert nodes[..k + 1][..k] == nodes[..k];
    if k < |front| {
      assert front[..k + 1] == nodes[..k + 1];
      DemandGrows(front, k);
    } else {
      assert nodes[..k + 1] == nodes;
    }
  }

  /** What has been handed out: how many IDs, and which streams leave and enter the run under which. */
  datatype Ledger = Ledger(used: nat, streams: Streams, externals: Streams)

  /** The state after the first `k` nodes. */
  ghost predicate IdsUpTo(nodes: seq<QueryNode>, k: nat, inputIds: IdMap, outputIds: IdMap, available: seq<nat>,
                          ledger: Ledger)
    requires forall n :: n in nodes ==> |n.inputFiles| <= |n.previousNodes|
    reads nodes, set n, i | n in nodes && 0 <= i < |n.previousNodes| :: n.previousNodes[i]
  {
    && k <= |nodes|
    && ledger.used == TotalDemand(nodes[..k]) <= MAX_IO_STREAM_COUNT && available == Remaining(ledger.used)
    && Allocated(nodes[..k], inputIds, outputIds, ledger.used, ledger.streams, ledger.externals)
    && forall j :: k <= j < |nodes| ==> nodes[j].name !in outputIds
  }

  method AllocateNext(nodes: seq<QueryNode>, k: nat, inputIds: IdMap, outputIds: IdMap, available: seq<nat>,
                      ghost all: set<QueryNode>, ghost ledger: Ledger)
    returns (ok: bool, inputIds': IdMap, outputIds': IdMap, rest: seq<nat>, ghost ledger': Ledger)
    requires RunShape(all, nodes) && k < |nodes|
    requires forall n :: n in nodes ==> |n.inputFiles| <= |n.previousNodes|
    requires IdsUpTo(nodes, k, inputIds, outputIds, available, ledger)
    ensures ok ==> IdsUpTo(nodes, k + 1, inputIds', outputIds', rest, ledger')
    ensures !ok ==> TotalDemand(nodes) > MAX_IO_STREAM_COUNT
  {
    hide Allocated, InputState, OutputsFrom, Demand, TotalDemand, Remaining, InOrder, WithInputs, WithOutputs;
    inputIds', outputIds', ledger' := inputIds, outputIds, ledger;
    var node := nodes[k];
    NameIsNew(all, nodes, k);
    DemandGrows(nodes, k);
    var inputs, outputs;
    ghost var left;
    ok, inputs, outputs, rest, left :=
      AllocateForNode(node, inputIds, outputIds, available, all, nodes[..k], ledger.used, ledger.streams,
                      ledger.externals);
    if ok {
      ledger' := Ledger(ledger.used + Demand(node), WithOutputs(left, node, outputs, |outputs|),
                        WithInputs(ledger.externals, node, inputs, |inputs|));
      NextUpTo(nodes, k, inputIds, outputIds, available, ledger, inputs, outputs, rest, left, ledger');
      inputIds' := inputIds[node.name := inputs];
      outputIds' := outputIds[node.name := outputs];
    }
  }

  lemma NextUpTo(nodes: seq<QueryNode>, k: nat, inputIds: IdMap, outputIds: IdMap, available: seq<nat>,
                 ledger: Ledger, inputs: seq<nat>, outputs: seq<nat>, rest: seq<nat>, left: Streams, ledger': Ledger)
    requires k < |nodes| && forall n :: n in nodes ==> |n.inputFiles| <= |n.previousNodes|
    requires IdsUpTo(nodes, k, inputIds, outputIds, available, ledger)
    requires forall j :: 0 <= j < |nodes| && j != k ==> nodes[j].name != nodes[k].name
    requires InOrder(nodes[..k], nodes[k]) && |inputs| == |nodes[k].inputFiles|
    requires var now := ledger.used + ExternalInputs(nodes[k], |nodes[k].inputFiles|);
             && InputState(nodes[k], inputs, outputIds, nodes[..k], ledger.used, now, left)
             && OutputsFrom(nodes[k], inputs, outputs, now)
    requires ledger.used + Demand(nodes[k]) <= MAX_IO_STREAM_COUNT && rest == Remaining(ledger.used + Demand(nodes[k]))
    requires ledger' == Ledger(ledger.used + Demand(nodes[k]), WithOutputs(left, nodes[k], outputs, |outputs|),
                               WithInputs(ledger.externals, nodes[k], inputs, |inputs|))
    ensures IdsUpTo(nodes, k + 1, inputIds[nodes[k].name := inputs], outputIds[nodes[k].name := outputs], rest, ledger')
  {
    hide Allocated, InputState, OutputsFrom, Demand, TotalDemand, Remaining, InOrder;
    var node := nodes[k];
    DemandGrows(nodes, k);
    AllocatedAfter(node, inputIds, outputIds, nodes[..k], ledger.used, ledger.streams, ledger.externals, inputs,
                   outputs, left);
    assert nodes[..k + 1] == nodes[..k] + [node];
  }

  lemma NameIsNew(all: set<QueryNode>, nodes: seq<QueryNode>, k: nat)
    requires RunShape(all, nodes) && k < |nodes|
    ensures nodes[k] in all && InOrder(nodes[..k], nodes[k])
    ensures forall p :: p in nodes[..k] ==> LinksWithin(all, p)
    ensures forall j :: 0 <= j < |nodes| && j != k ==> nodes[j].name != nodes[k].name
  {
    assert nodes[k] in nodes && NameIsOwn(all, nodes[k]);
    forall j | 0 <= j < |nodes| && j != k ensures nodes[j].name != nodes[k].name {
      assert nodes[j] in nodes && InOrder(nodes[..j], nodes[j]);
      assert j < k ==> nodes[j] in nodes[..k];
      assert k < j ==> nodes[k] in nodes[..j];
    }
    forall p | p in nodes[..k] ensures LinksWithin(all, p) {
      assert p in nodes;
    }
  }

  /** When all nodes are done, the streams that leave or enter the run under one ID are one stream. */
  lemma AllDone(nodes: seq<QueryNode>, inputIds: IdMap, outputIds: IdMap, available: seq<nat>, ledger: Ledger)
    requires forall n :: n in nodes ==> |n.inputFiles| <= |n.previousNodes|
    requires IdsUpTo(nodes, |nodes|, inputIds, outputIds, available, ledger)
    ensures TotalDemand(nodes) <= MAX_IO_STREAM_COUNT
    ensures forall m :: m in nodes ==> NodeDone(m, inputIds, outputIds, MAX_IO_STREAM_COUNT)
    ensures LeftoversDiffer(nodes, outputIds) && ExternalsDiffer(nodes, inputIds)
  {
    assert nodes[..|nodes|] == nodes;
    forall m | m in nodes ensures NodeDone(m, inputIds, outputIds, MAX_IO_STREAM_COUNT) {
      assert NodeDone(m, inputIds, outputIds, ledger.used);
    }
    forall p, i: nat, q, j: nat | p in nodes && q in nodes && (p, i) != (q, j)
      && i < |p.inputFiles| && i < |p.previousNodes| && p.previousNodes[i] == null
      && j < |q.inputFiles| && j < |q.previousNodes| && q.previousNodes[j] == null
      && p.name in inputIds && i < |inputIds[p.name]| && q.name in inputIds && j < |inputIds[q.name]|
      ensures inputIds[p.name][i] != inputIds[q.name][j]
    {
      assert (p, i) in ledger.externals && (q, j) in ledger.externals;
    }
  }

  /**
   * Gives the streams of a run their IDs. It succeeds exactly when the inputs from outside and the outputs beyond
   * the inputs together need no more than 16; then all links carry one ID, and whatever meets has different IDs.
   */
  method AllocateStreamIDs(nodes: seq<QueryNode>, ghost all: set<QueryNode>)
    returns (ok: bool, inputIds: IdMap, outputIds: IdMap)
    requires RunShape(all, nodes)
    requires forall n :: n in nodes ==> |n.inputFiles| <= |n.previousNodes|
    ensures ok <==> TotalDemand(nodes) <= MAX_IO_STREAM_COUNT
    ensures ok ==> forall m :: m in nodes ==> NodeDone(m, inputIds, outputIds, MAX_IO_STREAM_COUNT)
    ensures ok ==> LeftoversDiffer(nodes, outputIds) && ExternalsDiffer(nodes, inputIds)
  {
    ok, inputIds, outputIds := true, map[], map[];
    var available := SetUpAvailableIDs();
    ghost var ledger := Ledger(0, map[], map[]);
    for k := 0 to |nodes|
      invariant ok && IdsUpTo(nodes, k, inputIds, outputIds, available, ledger)
    {
      ok, inputIds, outputIds, available, ledger := AllocateNext(nodes, k, inputIds, outputIds, available, all, ledger);
      if !ok {
        return;
      }
    }
    AllDone(nodes, inputIds, outputIds, available, ledger);
  }
}
