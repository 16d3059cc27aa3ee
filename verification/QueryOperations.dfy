/** Operation types and configurable modules, as the accelerator library names them. */
module QueryOperations {

  datatype OperationType =
    | Filter
    | Join
    | MergeSort
    | PassThrough
    | LinearSort
    | Addition
    | Multiplication
    | AggregationSum

  /** A module: what it computes, and the elasticity data that tells modules of one type apart. */
  datatype QueryOperation = QueryOperation(operationType: OperationType, elasticity: seq<int>)

  /** The modules of a bitstream, in pipeline order. */
  type ModulesVector = seq<QueryOperation>

  /** For every operation type, the values each elasticity parameter can take. */
  type ModuleLibrary = map<OperationType, seq<seq<int>>>

  ghost predicate StrictlySorted(values: seq<int>) {
    forall i, j :: 0 <= i < j < |values| ==> values[i] < values[j]
  }

  /** `a` comes before `b` in lexicographic order, or is `b`. */
  ghost predicate LexicographicallyLeq(a: seq<int>, b: seq<int>) {
    a == b || exists k :: 0 <= k < |a| && k < |b| && a[..k] == b[..k] && a[k] < b[k]
  }

  /** `parameters` picks one option for every elasticity parameter. */
  predicate IsChoice(options: seq<seq<int>>, parameters: seq<int>) {
    && |parameters| == |options|
    && forall k :: 0 <= k < |options| ==> parameters[k] in options[k]
  }

  function Inserted<T>(s: seq<T>, position: nat, x: T): seq<T>
    requires position <= |s|
  {
    s[..position] + [x] + s[position..]
  }
}
