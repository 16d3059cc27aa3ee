/** The module library: the accelerator library factored by operation type and parameter. */
module ConfigCreator {
  import opened QueryOperations

  /** All modules of all bitstreams, in the order the accelerator library is traversed. */
  ghost function Occurrences(keys: seq<ModulesVector>): seq<QueryOperation> {
    if keys == [] then [] else Occurrences(keys[..|keys| - 1]) + keys[|keys| - 1]
  }

  /** The parameter count of the first module of the given type. */
  ghost function Arity(occurrences: seq<QueryOperation>, operation: OperationType): nat {
    if occurrences == [] then 0
    else if occurrences[0].operationType == operation then |occurrences[0].elasticity|
    else Arity(occurrences[1..], operation)
  }

  ghost predicate OperationOccurs(occurrences: seq<QueryOperation>, operation: OperationType) {
    exists m :: m in occurrences && m.operationType == operation
  }

  ghost predicate ValueOccurs(occurrences: seq<QueryOperation>, operation: OperationType, k: nat, value: int) {
    exists m :: m in occurrences && m.operationType == operation && k < |m.elasticity| && m.elasticity[k] == value
  }

  /** No module has more parameters than the first one of its type; more would index out of bounds. */
  ghost predicate ParametersFit(occurrences: seq<QueryOperation>) {
    forall m :: m in occurrences ==> |m.elasticity| <= Arity(occurrences, m.operationType)
  }

  /** All modules of one type have the same number of parameters. */
  ghost predicate UniformParameters(occurrences: seq<QueryOperation>) {
    forall m :: m in occurrences ==> |m.elasticity| == Arity(occurrences, m.operationType)
  }

  /** `library` holds, per operation type and parameter, exactly the values that occur. */
  ghost predicate Collects(occurrences: seq<QueryOperation>, total: seq<QueryOperation>, library: ModuleLibrary) {
    && (forall op :: op in library <==> OperationOccurs(occurrences, op))
    && (forall op :: op in library ==> |library[op]| == Arity(total, op))
    && (forall op, k, v :: op in library && 0 <= k < |library[op]| ==>
          (v in library[op][k] <==> ValueOccurs(occurrences, op, k, v)))
  }

  ghost predicate Factored(occurrences: seq<QueryOperation>, library: ModuleLibrary) {
    && Collects(occurrences, occurrences, library)
    && forall op, k :: op in library && 0 <= k < |library[op]| ==> StrictlySorted(library[op][k])
  }

  lemma {:induction false} ArityOfPrefix(front: seq<QueryOperation>, back: seq<QueryOperation>,
                                         operation: OperationType)
    requires OperationOccurs(front, operation)
    ensures Arity(front + back, operation) == Arity(front, operation)
  {
    assert front != [];
    assert (front + back)[1..] == front[1..] + back;
    if front[0].operationType != operation {
      var m :| m in front && m.operationType == operation;
      assert m in front[1..];
      ArityOfPrefix(front[1..], back, operation);
    }
  }

  lemma {:induction false} ArityAfterPrefix(front: seq<QueryOperation>, back: seq<QueryOperation>,
                                            operation: OperationType)
    requires !OperationOccurs(front, operation)
    ensures Arity(front + back, operation) == Arity(back, operation)
  {
    if front == [] {
      assert front + back == back;
    } else {
      assert front[0] in front;
      assert (front + back)[1..] == front[1..] + back;
      assert forall m :: m in front[1..] ==> m in front;
      ArityAfterPrefix(front[1..], back, operation);
    }
  }

  /** The elements of `values` in increasing order without duplicates: std::sort, then std::unique and erase. */
  function SortedDistinct(values: seq<int>): (sorted: seq<int>)
    ensures StrictlySorted(sorted)
    ensures forall v :: v in sorted <==> v in values
  {
    if values == [] then [] else InsertDistinct(SortedDistinct(values[1..]), values[0])
  }

  function InsertDistinct(sorted: seq<int>, value: int): (r: seq<int>)
    requires StrictlySorted(sorted)
    ensures StrictlySorted(r)
    ensures forall v :: v in r <==> v == value || v in sorted
  {
    if sorted == [] || value < sorted[0] then [value] + sorted
    else if value == sorted[0] then sorted
    else
      var rest := InsertDistinct(sorted[1..], value);
      assert forall k :: 0 <= k < |rest| ==> rest[k] == value || rest[k] in sorted[1..];
      [sorted[0]] + rest
  }

  /** Appends every parameter of `operation` to the values seen for it, or starts its entry. */
  method CollectOperation(library: ModuleLibrary, operation: QueryOperation,
                          ghost seen: seq<QueryOperation>, ghost rest: seq<QueryOperation>)
    returns (extended: ModuleLibrary)
    requires ParametersFit(seen + [operation] + rest)
    requires Collects(seen, seen + [operation] + rest, library)
    ensures Collects(seen + [operation], seen + [operation] + rest, extended)
  {
    ghost var total := seen + [operation] + rest;
    var op := operation.operationType;
    assert operation in total;
    if op in library {
      var values := library[op];
      for k := 0 to |operation.elasticity|
        invariant |values| == |library[op]|
        invariant forall j :: 0 <= j < |values| ==>
                    values[j] == if j < k then library[op][j] + [operation.elasticity[j]] else library[op][j]
      {
        values := values[k := values[k] + [operation.elasticity[k]]];
      }
      extended := library[op := values];
    } else {
      var values :=
        seq(|operation.elasticity|, k requires 0 <= k < |operation.elasticity| => [operation.elasticity[k]]);
      extended := library[op := values];
      assert total == seen + ([operation] + rest);
      ArityAfterPrefix(seen, [operation] + rest, op);
    }
    CollectedOne(library, operation, seen, rest, extended);
  }

  /** Extending the entry of one operation type collects one more module. */
  lemma CollectedOne(library: ModuleLibrary, operation: QueryOperation, seen: seq<QueryOperation>,
                     rest: seq<QueryOperation>, extended: ModuleLibrary)
    requires Collects(seen, seen + [operation] + rest, library)
    requires ParametersFit(seen + [operation] + rest)
    requires extended.Keys == library.Keys + {operation.operationType}
    requires forall op :: op in library && op != operation.operationType ==> extended[op] == library[op]
    requires |extended[operation.operationType]| == Arity(seen + [operation] + rest, operation.operationType)
    requires forall k :: 0 <= k < |extended[operation.operationType]| ==>
               extended[operation.operationType][k] ==
               (if operation.operationType in library then library[operation.operationType][k] else []) +
               (if k < |operation.elasticity| then [operation.elasticity[k]] else [])
    ensures Collects(seen + [operation], seen + [operation] + rest, extended)
  {
    var now := seen + [operation];
    assert operation in now;
    forall op ensures OperationOccurs(now, op) <==> op == operation.operationType || OperationOccurs(seen, op) {
      if OperationOccurs(seen, op) {
        var m :| m in seen && m.operationType == op;
        assert m in now;
      }
    }
    forall op, k, v | op in extended && 0 <= k < |extended[op]|
      ensures v in extended[op][k] <==> ValueOccurs(now, op, k, v)
    {
      assert ValueOccurs(now, op, k, v) <==>
             (ValueOccurs(seen, op, k, v)
              || (op == operation.operationType && k < |operation.elasticity| && operation.elasticity[k] == v)) by {
        if ValueOccurs(seen, op, k, v) {
          var m :| m in seen && m.operationType == op && k < |m.elasticity| && m.elasticity[k] == v;
          assert m in now;
        }
      }
      if op !in library {
        assert !OperationOccurs(seen, op);
      }
    }
  }

  /** Collects the modules of one bitstream, in order. */
  method CollectKey(library: ModuleLibrary, key: ModulesVector,
                    ghost seen: seq<QueryOperation>, ghost rest: seq<QueryOperation>)
    returns (extended: ModuleLibrary)
    requires ParametersFit(seen + key + rest)
    requires Collects(seen, seen + key + rest, library)
    ensures Collects(seen + key, seen + key + rest, extended)
  {
    extended := library;
    assert seen + key[..0] == seen;
    for j := 0 to |key|
      invariant Collects(seen + key[..j], seen + key + rest, extended)
    {
      assert seen + key + rest == (seen + key[..j]) + [key[j]] + (key[j + 1..] + rest);
      assert (seen + key[..j]) + [key[j]] == seen + key[..j + 1];
      extended := CollectOperation(extended, key[j], seen + key[..j], key[j + 1..] + rest);
    }
    assert key[..|key|] == key;
  }

  method ConvertAcceleratorLibraryToModuleLibrary(keys: seq<ModulesVector>) returns (library: ModuleLibrary)
    requires ParametersFit(Occurrences(keys))
    ensures Factored(Occurrences(keys), library)
  {
    ghost var total := Occurrences(keys);
    var collected: ModuleLibrary := map[];
    for i := 0 to |keys|
      invariant Collects(Occurrences(keys[..i]), total, collected)
    {
      OccurrencesOfPrefix(keys, i);
      ghost var before := Occurrences(keys[..i]);
      ghost var rest := total[|before + keys[i]|..];
      assert total == before + keys[i] + rest;
      collected := CollectKey(collected, keys[i], before, rest);
    }
    assert keys[..|keys|] == keys;
    library := SortParameters(collected);
  }

  /** The final pass: sorts the values of every parameter and drops duplicates. */
  function SortParameters(collected: ModuleLibrary): (library: ModuleLibrary)
    ensures library.Keys == collected.Keys
    ensures forall op :: op in library ==> |library[op]| == |collected[op]|
    ensures forall op, k :: op in library && 0 <= k < |library[op]| ==> StrictlySorted(library[op][k])
    ensures forall op, k, v :: op in library && 0 <= k < |library[op]| ==>
              (v in library[op][k] <==> v in collected[op][k])
  {
    map op | op in collected ::
      seq(|collected[op]|, k requires 0 <= k < |collected[op]| => SortedDistinct(collected[op][k]))
  }

  lemma {:induction false} OccurrencesOfPrefix(keys: seq<ModulesVector>, n: nat)
    requires n < |keys|
    ensures Occurrences(keys[..n + 1]) == Occurrences(keys[..n]) + keys[n]
    ensures Occurrences(keys[..n + 1]) <= Occurrences(keys)
    decreases |keys|
  {
    assert keys[..n + 1][..n] == keys[..n];
    if n + 1 == |keys| {
      assert keys[..n + 1] == keys;
    } else {
      var shorter := keys[..|keys| - 1];
      OccurrencesOfPrefix(shorter, n);
      assert shorter[..n + 1] == keys[..n + 1];
    }
  }

  /** Every module of every bitstream is among the occurrences. */
  lemma {:induction false} KeyModulesOccur(keys: seq<ModulesVector>, key: ModulesVector, m: QueryOperation)
    requires key in keys && m in key
    ensures m in Occurrences(keys)
  {
    if key in keys[..|keys| - 1] {
      KeyModulesOccur(keys[..|keys| - 1], key, m);
    }
  }
}
