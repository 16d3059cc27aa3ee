/** The search for a position and parameters that let one more operation join a module vector. */
module Placement {
  import opened QueryOperations
  import opened ConfigCreator

  /** Adds a module at a position, with the source's three cases. */
  function CreateNewModulesVector(operation: OperationType, position: nat, current: ModulesVector,
                                  parameters: seq<int>): (r: ModulesVector)
    requires position <= |current|
    ensures operation != PassThrough ==> r == Inserted(current, position, QueryOperation(operation, parameters))
    ensures operation == PassThrough ==> r == current
  {
    if operation == PassThrough then current
    else if current == [] then [QueryOperation(operation, parameters)]
    else if position == |current| then current + [QueryOperation(operation, parameters)]
    else current[..position] + [QueryOperation(operation, parameters)] + current[position..]
  }

  /** The vector with the operation at `position`, run with `parameters`, has a bitstream. */
  ghost predicate Supports(bitstreams: map<ModulesVector, string>, current: ModulesVector, position: nat,
                           operation: OperationType, parameters: seq<int>)
    requires position <= |current|
  {
    Inserted(current, position, QueryOperation(operation, parameters)) in bitstreams
  }

  /** How many of the first option lists are not empty. */
  ghost function LeadingOptions(options: seq<seq<int>>): (n: nat)
    ensures n <= |options|
    ensures forall k :: 0 <= k < n ==> options[k] != []
    ensures n < |options| ==> options[n] == []
  {
    if options == [] || options[0] == [] then 0 else 1 + LeadingOptions(options[1..])
  }

  /** The choices that keep the first `fixed` parameters. */
  ghost predicate IsChoiceFrom(options: seq<seq<int>>, fixed: seq<int>, parameters: seq<int>)
  {
    && |fixed| <= |options| == |parameters|
    && parameters[..|fixed|] == fixed
    && forall k :: |fixed| <= k < |options| ==> parameters[k] in options[k]
  }

  /** Among the supported choices that keep `fixed`, none comes lexicographically before `parameters`. */
  ghost predicate LeastSupported(bitstreams: map<ModulesVector, string>, current: ModulesVector, position: nat,
                                 operation: OperationType, options: seq<seq<int>>, fixed: seq<int>,
                                 parameters: seq<int>)
    requires position <= |current|
  {
    forall q :: IsChoiceFrom(options, fixed, q) && Supports(bitstreams, current, position, operation, q)
                ==> LexicographicallyLeq(parameters, q)
  }

  /** Backtracking over the parameter options from `index` on. An empty vector means there is no supported choice. */
  method CheckModuleParameterSupport(moduleParameters: seq<int>, current: ModulesVector, position: nat, index: nat,
                                     operation: OperationType, options: seq<seq<int>>,
                                     bitstreams: map<ModulesVector, string>)
    returns (r: ModulesVector)
    requires operation != PassThrough
    requires position <= |current|
    requires index < |options|
    requires index <= LeadingOptions(options) <= |moduleParameters| <= |options|
    ensures r == [] ==> forall p :: IsChoiceFrom(options, moduleParameters[..index], p)
                                    ==> !Supports(bitstreams, current, position, operation, p)
    ensures r != [] ==>
              && |r| == |current| + 1
              && IsChoiceFrom(options, moduleParameters[..index], r[position].elasticity)
              && r == Inserted(current, position, QueryOperation(operation, r[position].elasticity))
              && r in bitstreams
    ensures r != [] && (forall k :: 0 <= k < |options| ==> StrictlySorted(options[k])) ==>
              LeastSupported(bitstreams, current, position, operation, options, moduleParameters[..index],
                             r[position].elasticity)
    decreases |options| - index
  {
    var parameters := moduleParameters;
    var fixed := moduleParameters[..index];
    for i := 0 to |options[index]|
      invariant |parameters| == |moduleParameters| && parameters[..index] == fixed
      invariant forall p :: IsChoiceFrom(options, fixed, p) && p[index] in options[index][..i]
                            ==> !Supports(bitstreams, current, position, operation, p)
    {
      var value := options[index][i];
      parameters := parameters[index := value];
      var chosen := parameters[..index + 1];
      assert chosen == fixed + [value];
      if index == |options| - 1 {
        r := CreateNewModulesVector(operation, position, current, parameters);
        assert parameters == chosen;
        if r in bitstreams {
          assert r[position].elasticity == parameters;
          LeastHere(bitstreams, current, position, operation, options, fixed, i, parameters);
          return;
        }
      } else {
        r := CheckModuleParameterSupport(parameters, current, position, index + 1, operation, options, bitstreams);
        if r != [] {
          var found := r[position].elasticity;
          assert found[index] == chosen[index];
          assert found[..index] == chosen[..index];
          LeastHere(bitstreams, current, position, operation, options, fixed, i, found);
          return;
        }
      }
      forall p | IsChoiceFrom(options, fixed, p) && p[index] in options[index][..i + 1]
        ensures !Supports(bitstreams, current, position, operation, p)
      {
        if p[index] == value {
          assert p[..index + 1] == p[..index] + [p[index]] == chosen;
          assert IsChoiceFrom(options, chosen, p);
          if index == |options| - 1 {
            assert p == parameters;
          }
        }
      }
    }
    return [];
  }

  /** A choice is least if it is among those with its value at the next parameter, and smaller values fail. */
  lemma LeastHere(bitstreams: map<ModulesVector, string>, current: ModulesVector, position: nat,
                  operation: OperationType, options: seq<seq<int>>, fixed: seq<int>, i: nat, found: seq<int>)
    requires position <= |current|
    requires |fixed| < |options| && i < |options[|fixed|]|
    requires IsChoiceFrom(options, fixed + [options[|fixed|][i]], found)
    requires forall p :: IsChoiceFrom(options, fixed, p) && p[|fixed|] in options[|fixed|][..i]
                         ==> !Supports(bitstreams, current, position, operation, p)
    requires (forall k :: 0 <= k < |options| ==> StrictlySorted(options[k]))
             && |fixed| + 1 < |options| ==>
               LeastSupported(bitstreams, current, position, operation, options,
                              fixed + [options[|fixed|][i]], found)
    ensures IsChoiceFrom(options, fixed, found)
    ensures (forall k :: 0 <= k < |options| ==> StrictlySorted(options[k])) ==>
              LeastSupported(bitstreams, current, position, operation, options, fixed, found)
  {
    var n := |fixed|;
    var chosen := fixed + [options[n][i]];
    assert found[n] == chosen[n] && found[..n] == chosen[..n] == fixed;
    if forall k :: 0 <= k < |options| ==> StrictlySorted(options[k]) {
      forall q | IsChoiceFrom(options, fixed, q) && Supports(bitstreams, current, position, operation, q)
        ensures LexicographicallyLeq(found, q)
      {
        assert forall k :: 0 <= k < i ==> options[n][k] in options[n][..i];
        var j :| 0 <= j < |options[n]| && options[n][j] == q[n];
        assert i <= j;
        if j == i {
          assert q[..n + 1] == chosen;
          if n + 1 == |options| {
            assert q == found;
          } else {
            assert IsChoiceFrom(options, chosen, q);
          }
        } else {
          assert found[..n] == q[..n] && found[n] < q[n];
        }
      }
    }
  }

  /** The parameter vectors the search tries: one option each, or none when no parameter has an option. */
  ghost predicate Candidate(options: seq<seq<int>>, parameters: seq<int>) {
    if forall k :: 0 <= k < |options| ==> options[k] == [] then parameters == [] else IsChoice(options, parameters)
  }

  /** No candidate is supported at `position`. */
  ghost predicate NoneSupported(bitstreams: map<ModulesVector, string>, current: ModulesVector, position: nat,
                                operation: OperationType, options: seq<seq<int>>)
    requires position <= |current|
  {
    forall p :: Candidate(options, p) ==> !Supports(bitstreams, current, position, operation, p)
  }

  /** `r` is the placement at the smallest supported position >= first, with the least supported parameters there. */
  ghost predicate BestPlacement(bitstreams: map<ModulesVector, string>, current: ModulesVector, first: nat,
                                operation: OperationType, options: seq<seq<int>>, position: int, r: ModulesVector)
  {
    && first <= position <= |current|
    && |r| == |current| + 1
    && r in bitstreams
    && r == Inserted(current, position, QueryOperation(operation, r[position].elasticity))
    && Candidate(options, r[position].elasticity)
    && (forall earlier :: first <= earlier < position ==>
          NoneSupported(bitstreams, current, earlier, operation, options))
    && ((forall k :: 0 <= k < |options| ==> StrictlySorted(options[k])) ==>
          forall q :: Candidate(options, q) && Supports(bitstreams, current, position, operation, q)
                      ==> LexicographicallyLeq(r[position].elasticity, q))
  }

  /** The first option of every parameter that has one. */
  method FirstOptions(options: seq<seq<int>>) returns (parameters: seq<int>)
    ensures LeadingOptions(options) <= |parameters| <= |options|
    ensures parameters == [] <==> forall k :: 0 <= k < |options| ==> options[k] == []
  {
    parameters := [];
    for i := 0 to |options|
      invariant |parameters| <= i
      invariant i <= LeadingOptions(options) ==> |parameters| == i
      invariant i > LeadingOptions(options) ==> |parameters| >= LeadingOptions(options)
      invariant parameters == [] <==> forall k :: 0 <= k < i ==> options[k] == []
    {
      if options[i] != [] {
        parameters := parameters + [options[i][0]];
      }
    }
  }

  /** Tries the positions from `first` on; an empty vector means that no placement is supported. */
  method FindPlacement(operation: OperationType, first: nat, current: ModulesVector, options: seq<seq<int>>,
                       bitstreams: map<ModulesVector, string>)
    returns (r: ModulesVector, position: nat)
    requires operation != PassThrough
    requires first <= |current|
    ensures r == [] ==> forall p :: first <= p <= |current| ==>
         NoneSupported(bitstreams, current, p, operation, options)
    ensures r != [] ==> BestPlacement(bitstreams, current, first, operation, options, position, r)
  {
    position := first;
    while position < |current| + 1
      invariant first <= position <= |current| + 1
      invariant forall p :: first <= p < position ==> NoneSupported(bitstreams, current, p, operation, options)
    {
      var parameters := FirstOptions(options);
      if parameters != [] {
        r := CheckModuleParameterSupport(parameters, current, position, 0, operation, options, bitstreams);
        assert parameters[..0] == [];
        assert forall p :: IsChoice(options, p) <==> IsChoiceFrom(options, [], p);
        if r != [] {
          return;
        }
      } else {
        r := CreateNewModulesVector(operation, position, current, parameters);
        if r in bitstreams {
          return;
        }
      }
      position := position + 1;
    }
    r := [];
  }

  /**
   * Completeness against the real library. The search only sees the factored library, whose entry for an
   * operation has as many parameters as its first module. It misses exactly the keys in which the operation has
   * another number of parameters, so nothing when all modules of a type have the same number.
   */
  lemma SearchIsComplete(keys: seq<ModulesVector>, bitstreams: map<ModulesVector, string>, library: ModuleLibrary,
                         current: ModulesVector, position: nat, operation: OperationType)
    requires forall key :: key in bitstreams <==> key in keys
    requires Factored(Occurrences(keys), library)
    requires operation in library
    requires position <= |current|
    ensures NoneSupported(bitstreams, current, position, operation, library[operation]) <==>
            forall p :: |p| == Arity(Occurrences(keys), operation)
                        ==> !Supports(bitstreams, current, position, operation, p)
    ensures UniformParameters(Occurrences(keys)) ==>
              (NoneSupported(bitstreams, current, position, operation, library[operation]) <==>
               forall p :: !Supports(bitstreams, current, position, operation, p))
  {
    forall p | Supports(bitstreams, current, position, operation, p)
      ensures Candidate(library[operation], p) <==> |p| == Arity(Occurrences(keys), operation)
      ensures UniformParameters(Occurrences(keys)) ==> |p| == Arity(Occurrences(keys), operation)
    {
      SupportedIsCandidate(keys, bitstreams, library, current, position, operation, p);
    }
    forall p | Candidate(library[operation], p) ensures |p| == Arity(Occurrences(keys), operation) {
      CandidateLength(keys, library, operation, p);
    }
  }

  lemma CandidateLength(keys: seq<ModulesVector>, library: ModuleLibrary, operation: OperationType,
                        parameters: seq<int>)
    requires Factored(Occurrences(keys), library)
    requires operation in library && Candidate(library[operation], parameters)
    ensures |parameters| == Arity(Occurrences(keys), operation)
  {
    if |library[operation]| > 0 {
      EntriesHaveValues(Occurrences(keys), operation);
      var v :| ValueOccurs(Occurrences(keys), operation, 0, v);
      assert v in library[operation][0];
    }
  }

  lemma {:induction false} EntriesHaveValues(occurrences: seq<QueryOperation>, operation: OperationType)
    requires Arity(occurrences, operation) > 0
    ensures exists v :: ValueOccurs(occurrences, operation, 0, v)
  {
    if occurrences[0].operationType == operation {
      assert ValueOccurs(occurrences, operation, 0, occurrences[0].elasticity[0]);
    } else {
      EntriesHaveValues(occurrences[1..], operation);
      var v :| ValueOccurs(occurrences[1..], operation, 0, v);
      assert ValueOccurs(occurrences, operation, 0, v);
    }
  }

  /** Whatever parameters make a library key, the factored library offers them if their number fits. */
  lemma SupportedIsCandidate(keys: seq<ModulesVector>, bitstreams: map<ModulesVector, string>, library: ModuleLibrary,
                             current: ModulesVector, position: nat, operation: OperationType, parameters: seq<int>)
    requires forall key :: key in bitstreams <==> key in keys
    requires Factored(Occurrences(keys), library)
    requires operation in library
    requires position <= |current|
    requires Supports(bitstreams, current, position, operation, parameters)
    ensures QueryOperation(operation, parameters) in Occurrences(keys)
    ensures Candidate(library[operation], parameters) <==> |parameters| == Arity(Occurrences(keys), operation)
  {
    var occurrences := Occurrences(keys);
    var m := QueryOperation(operation, parameters);
    var key := Inserted(current, position, m);
    assert m == key[position];
    KeyModulesOccur(keys, key, m);
    if |parameters| == Arity(occurrences, operation) {
      forall k | 0 <= k < |library[operation]| ensures parameters[k] in library[operation][k] {
        assert ValueOccurs(occurrences, operation, k, parameters[k]);
      }
      assert parameters != [] ==> parameters[0] in library[operation][0];
    } else if Candidate(library[operation], parameters) {
      CandidateLength(keys, library, operation, parameters);
    }
  }

  /** A library with different parameter counts in which the search misses the only key with two modules. */
  lemma SearchMissesShorterParameters(bitstreams: map<ModulesVector, string>, library: ModuleLibrary)
    requires var keys := [[QueryOperation(Filter, [1, 2])], [QueryOperation(Filter, [3]), QueryOperation(Join, [])]];
             (forall key :: key in bitstreams <==> key in keys)
             && ParametersFit(Occurrences(keys)) && Factored(Occurrences(keys), library)
    ensures Filter in library
    ensures Supports(bitstreams, [QueryOperation(Join, [])], 0, Filter, [3])
    ensures forall p: nat :: p <= 1 ==>
              NoneSupported(bitstreams, [QueryOperation(Join, [])], p, Filter, library[Filter])
  {
    var short, long := QueryOperation(Filter, [3]), QueryOperation(Filter, [1, 2]);
    var join := QueryOperation(Join, []);
    var keys := [[long], [short, join]];
    assert keys[..1] == [[long]] && keys[..1][..0] == [];
    assert Occurrences(keys) == [long, short, join];
    assert Arity([long, short, join], Filter) == 2;
    assert long in Occurrences(keys);
    assert Inserted([join], 0, short) == [short, join] == keys[1];
    forall p: nat | p <= 1 ensures NoneSupported(bitstreams, [join], p, Filter, library[Filter]) {
      forall parameters | |parameters| == 2 ensures !Supports(bitstreams, [join], p, Filter, parameters) {
        var m := QueryOperation(Filter, parameters);
        assert Inserted([join], p, m)[p] == m && |Inserted([join], p, m)| == 2;
        assert Inserted([join], p, m) != keys[0] && Inserted([join], p, m) != keys[1];
      }
      SearchIsComplete(keys, bitstreams, library, [join], p, Filter);
    }
  }

  /** The placement found is optimal over all positions and parameters of the real library. */
  lemma BestPlacementIsLeast(keys: seq<ModulesVector>, bitstreams: map<ModulesVector, string>, library: ModuleLibrary,
                             current: ModulesVector, first: nat, operation: OperationType, position: nat,
                             r: ModulesVector, otherPosition: nat, other: seq<int>)
    requires forall key :: key in bitstreams <==> key in keys
    requires Factored(Occurrences(keys), library) && UniformParameters(Occurrences(keys))
    requires operation in library
    requires BestPlacement(bitstreams, current, first, operation, library[operation], position, r)
    requires first <= otherPosition <= |current|
    requires Supports(bitstreams, current, otherPosition, operation, other)
    ensures position <= otherPosition
    ensures position == otherPosition ==> LexicographicallyLeq(r[position].elasticity, other)
  {
    SupportedIsCandidate(keys, bitstreams, library, current, otherPosition, operation, other);
    assert |other| == Arity(Occurrences(keys), operation);
    assert otherPosition < position ==>
      NoneSupported(bitstreams, current, otherPosition, operation, library[operation]);
  }
}
