/**
 The schema registry a kernel transaction reads and writes: indexes and constraints
 keyed by a label (or relationship type) and a list of property keys, kept as the
 committed store plus what the open transaction created and dropped.

 Tokens (labels, relationship types, property keys) are plain integers; every failing
 operation reports an error instead of changing anything.
 */
module SchemaRegistry {
  import opened Wrappers

  /** A schema descriptor: a label or a relationship type, and the property keys it covers, in order. */
  datatype Schema =
    | LabelSchema(labelId: int, props: seq<int>)
    | TypeSchema(relType: int, props: seq<int>)

  /** An `IndexReference`: the index on a schema, or the `NO_INDEX` sentinel. */
  datatype IndexRef = IndexRef(schema: Schema) | NoIndex

  datatype IndexState = Populating | Online | Failed

  datatype ConstraintKind = Uniqueness | NodeKey | NodeExistence | RelExistence

  /** A `ConstraintDescriptor`: equal kinds on equal schemas are the same constraint. */
  datatype Constraint = Constraint(kind: ConstraintKind, schema: Schema)

  /** The causes of a `SchemaKernelException`. */
  datatype SchemaError =
    | RepeatedProperty
    | AlreadyIndexed
    | AlreadyConstrained
    | NoSuchIndex
    | OwnedByConstraint
    | NoSuchConstraint
    | Violated

  /** Committed schema: every index with its population state, and every constraint. */
  datatype Store = Store(indexes: map<Schema, IndexState>, constraints: set<Constraint>)

  /** An open transaction: the committed store it started from and its own changes. */
  datatype Tx = Tx(
    store: Store,
    createdIndexes: set<Schema>,
    droppedIndexes: set<Schema>,
    createdConstraints: set<Constraint>,
    droppedConstraints: set<Constraint>)

  /** Some property key occurs twice in the list. */
  predicate Repeated(props: seq<int>) {
    exists i, j :: 0 <= i < j < |props| && props[i] == props[j]
  }

  /** Uniqueness and node key constraints are enforced by an index on their schema. */
  predicate IndexBacked(kind: ConstraintKind) {
    kind == Uniqueness || kind == NodeKey
  }

  /** Node constraints take a label schema, the relationship existence constraint a relationship type schema. */
  predicate Fits(c: Constraint) {
    c.kind == RelExistence <==> c.schema.TypeSchema?
  }

  // ---------------------------------------------------------------------------
  // What a transaction sees

  /** `indexesGetAll()` inside the transaction: committed, minus dropped, plus created. */
  function IndexesGetAll(tx: Tx): (r: set<Schema>)
    ensures forall s :: s in tx.createdIndexes ==> s in r
    ensures forall s :: s in tx.store.indexes && s !in tx.droppedIndexes ==> s in r
    ensures forall s :: s in r && s !in tx.createdIndexes ==> s in tx.store.indexes && s !in tx.droppedIndexes
  {
    (tx.store.indexes.Keys - tx.droppedIndexes) + tx.createdIndexes
  }

  /** `constraintsGetAll()` inside the transaction: committed, minus dropped, plus created. */
  function ConstraintsGetAll(tx: Tx): (r: set<Constraint>)
    ensures forall c :: c in tx.createdConstraints ==> c in r
    ensures forall c :: c in tx.store.constraints && c !in tx.droppedConstraints ==> c in r
    ensures forall c :: c in r && c !in tx.createdConstraints ==> c in tx.store.constraints && c !in tx.droppedConstraints
  {
    (tx.store.constraints - tx.droppedConstraints) + tx.createdConstraints
  }

  /** `indexesGetForLabel(label)`. */
  function IndexesGetForLabel(tx: Tx, labelId: int): (r: set<Schema>)
    ensures forall s :: s in r <==> s in IndexesGetAll(tx) && s.LabelSchema? && s.labelId == labelId
  {
    set s | s in IndexesGetAll(tx) && s.LabelSchema? && s.labelId == labelId
  }

  /** `constraintsGetForLabel(label)`. */
  function ConstraintsGetForLabel(tx: Tx, labelId: int): (r: set<Constraint>)
    ensures forall c :: c in r <==> c in ConstraintsGetAll(tx) && c.schema.LabelSchema? && c.schema.labelId == labelId
  {
    set c | c in ConstraintsGetAll(tx) && c.schema.LabelSchema? && c.schema.labelId == labelId
  }

  /** `constraintsGetForRelationshipType(type)`. */
  function ConstraintsGetForRelationshipType(tx: Tx, relType: int): (r: set<Constraint>)
    ensures forall c :: c in r <==> c in ConstraintsGetAll(tx) && c.schema.TypeSchema? && c.schema.relType == relType
  {
    set c | c in ConstraintsGetAll(tx) && c.schema.TypeSchema? && c.schema.relType == relType
  }

  /** `index(label, props...)`: the index on that label schema, or `NO_INDEX`. */
  function Index(tx: Tx, labelId: int, props: seq<int>): (r: IndexRef)
    ensures r != NoIndex <==> LabelSchema(labelId, props) in IndexesGetAll(tx)
    ensures r != NoIndex ==> r == IndexRef(LabelSchema(labelId, props))
  {
    if LabelSchema(labelId, props) in IndexesGetAll(tx) then IndexRef(LabelSchema(labelId, props)) else NoIndex
  }

  /** `constraintExists(constraint)`. */
  predicate ConstraintExists(tx: Tx, c: Constraint) {
    c in ConstraintsGetAll(tx)
  }

  /** `indexGetState(index)`: an index created by this transaction is still populating. */
  function IndexGetState(tx: Tx, ref: IndexRef): (r: Result<IndexState, SchemaError>)
    ensures r.Ok? <==> ref.IndexRef? && ref.schema in IndexesGetAll(tx)
    ensures r.Ok? && ref.schema in tx.createdIndexes ==> r.value == Populating
    ensures r.Ok? && ref.schema !in tx.createdIndexes ==> r.value == tx.store.indexes[ref.schema]
  {
    match ref
    case NoIndex => Err(NoSuchIndex)
    case IndexRef(s) =>
      if s in tx.createdIndexes then Ok(Populating)
      else if s in tx.store.indexes && s !in tx.droppedIndexes then Ok(tx.store.indexes[s])
      else Err(NoSuchIndex)
  }

  /** The index on `s` enforces a constraint the transaction sees. */
  predicate OwnedIndex(tx: Tx, s: Schema) {
    exists c :: c in ConstraintsGetAll(tx) && IndexBacked(c.kind) && c.schema == s
  }

  /**
   The invariant every reachable transaction keeps: each visible constraint fits its
   schema, each index-backed one has its index, and no two index-backed constraints
   share an index.
   */
  predicate Valid(tx: Tx) {
    && (forall c :: c in ConstraintsGetAll(tx) ==> Fits(c))
    && (forall c :: c in ConstraintsGetAll(tx) && IndexBacked(c.kind) ==> c.schema in IndexesGetAll(tx))
    && (forall c, d :: c in ConstraintsGetAll(tx) && d in ConstraintsGetAll(tx) && IndexBacked(c.kind) && IndexBacked(d.kind) && c.schema == d.schema ==> c == d)
  }

  // ---------------------------------------------------------------------------
  // Transactions

  /** `beginTransaction()`: nothing changed yet. */
  function Begin(store: Store): (tx: Tx)
    ensures IndexesGetAll(tx) == store.indexes.Keys && ConstraintsGetAll(tx) == store.constraints
  {
    Tx(store, {}, {}, {}, {})
  }

  /** `success()` then `close()`: the changes become the committed schema; new indexes start populating. */
  function Commit(tx: Tx): (store: Store)
    ensures store.indexes.Keys == IndexesGetAll(tx) && store.constraints == ConstraintsGetAll(tx)
    ensures forall s :: s in tx.createdIndexes ==> store.indexes[s] == Populating
    ensures forall s :: s in store.indexes && s !in tx.createdIndexes ==> store.indexes[s] == tx.store.indexes[s]
  {
    var indexes := map s | s in IndexesGetAll(tx) :: if s in tx.createdIndexes then Populating else tx.store.indexes[s];
    Store(indexes, ConstraintsGetAll(tx))
  }

  // ---------------------------------------------------------------------------
  // Schema writes

  /** `indexCreate(schema)`: returns the new index's reference. */
  function IndexCreate(tx: Tx, s: Schema): (r: Result<(Tx, IndexRef), SchemaError>)
    ensures r.Ok? <==> !Repeated(s.props) && s !in IndexesGetAll(tx)
    ensures r.Err? ==> r.error == (if Repeated(s.props) then RepeatedProperty else AlreadyIndexed)
    ensures r.Ok? ==> (
      && r.value.1 == IndexRef(s)
      && IndexesGetAll(r.value.0) == IndexesGetAll(tx) + {s}
      && ConstraintsGetAll(r.value.0) == ConstraintsGetAll(tx)
      && s in r.value.0.createdIndexes
      && r.value.0.store == tx.store)
  {
    if Repeated(s.props) then Err(RepeatedProperty)
    else if s in IndexesGetAll(tx) then Err(AlreadyIndexed)
    else Ok((tx.(createdIndexes := tx.createdIndexes + {s}), IndexRef(s)))
  }

  /** `indexDrop(index)`: `NO_INDEX`, an index the transaction does not see, and a constraint's index cannot be dropped. */
  function IndexDrop(tx: Tx, ref: IndexRef): (r: Result<Tx, SchemaError>)
    ensures r.Ok? <==> ref.IndexRef? && ref.schema in IndexesGetAll(tx) && !OwnedIndex(tx, ref.schema)
    ensures r.Err? && ref.IndexRef? && ref.schema in IndexesGetAll(tx) ==> r.error == OwnedByConstraint
    ensures r.Ok? ==> (
      && IndexesGetAll(r.value) == IndexesGetAll(tx) - {ref.schema}
      && ConstraintsGetAll(r.value) == ConstraintsGetAll(tx)
      && r.value.store == tx.store)
  {
    match ref
    case NoIndex => Err(NoSuchIndex)
    case IndexRef(s) =>
      if s !in IndexesGetAll(tx) then Err(NoSuchIndex)
      else if OwnedIndex(tx, s) then Err(OwnedByConstraint)
      else Ok(tx.(createdIndexes := tx.createdIndexes - {s}, droppedIndexes := tx.droppedIndexes + {s}))
  }

  /**
   `uniquePropertyConstraintCreate`, `nodeKeyConstraintCreate`,
   `nodePropertyExistenceConstraintCreate` and `relationshipPropertyExistenceConstraintCreate`:
   index-backed kinds refuse repeated properties and a schema that is already indexed, no
   constraint is created twice, and the committed data must satisfy the new constraint.
   */
  function ConstraintCreate(tx: Tx, data: Data, c: Constraint): (r: Result<(Tx, Constraint), SchemaError>)
    requires Fits(c)
    ensures r.Ok? <==> (
      && !(IndexBacked(c.kind) && Repeated(c.schema.props))
      && c !in ConstraintsGetAll(tx)
      && !(IndexBacked(c.kind) && c.schema in IndexesGetAll(tx))
      && Satisfied(data, c))
    ensures r.Ok? ==> (
      && r.value.1 == c
      && ConstraintsGetAll(r.value.0) == ConstraintsGetAll(tx) + {c}
      && IndexesGetAll(r.value.0) == IndexesGetAll(tx) + (if IndexBacked(c.kind) then {c.schema} else {})
      && r.value.0.store == tx.store)
  {
    if IndexBacked(c.kind) && Repeated(c.schema.props) then Err(RepeatedProperty)
    else if c in ConstraintsGetAll(tx) then Err(AlreadyConstrained)
    else if IndexBacked(c.kind) && c.schema in IndexesGetAll(tx) then Err(AlreadyIndexed)
    else if !Satisfied(data, c) then Err(Violated)
    else
      var withIndex := if IndexBacked(c.kind) then tx.(createdIndexes := tx.createdIndexes + {c.schema}) else tx;
      Ok((withIndex.(createdConstraints := tx.createdConstraints + {c}), c))
  }

  /** `constraintDrop(constraint)`: also drops the index that enforced it. */
  function ConstraintDrop(tx: Tx, c: Constraint): (r: Result<Tx, SchemaError>)
    ensures r.Ok? <==> c in ConstraintsGetAll(tx)
    ensures r.Err? ==> r.error == NoSuchConstraint
    ensures r.Ok? ==> (
      && ConstraintsGetAll(r.value) == ConstraintsGetAll(tx) - {c}
      && IndexesGetAll(r.value) == IndexesGetAll(tx) - (if IndexBacked(c.kind) then {c.schema} else {})
      && r.value.store == tx.store)
  {
    if c !in ConstraintsGetAll(tx) then Err(NoSuchConstraint)
    else
      var withoutIndex :=
        if IndexBacked(c.kind)
        then tx.(createdIndexes := tx.createdIndexes - {c.schema}, droppedIndexes := tx.droppedIndexes + {c.schema})
        else tx;
      Ok(withoutIndex.(createdConstraints := tx.createdConstraints - {c}, droppedConstraints := tx.droppedConstraints + {c}))
  }

  // ---------------------------------------------------------------------------
  // Data the constraints are checked against

  datatype Node = Node(labels: set<int>, props: map<int, int>)

  datatype Relationship = Relationship(relType: int, props: map<int, int>)

  datatype Data = Data(nodes: seq<Node>, rels: seq<Relationship>)

  /** Every key of `keys` has a value in `props`. */
  predicate HasAll(props: map<int, int>, keys: seq<int>) {
    forall i :: 0 <= i < |keys| ==> keys[i] in props
  }

  /** The values of `keys`, in order. */
  function ValuesOf(props: map<int, int>, keys: seq<int>): (r: seq<int>)
    requires HasAll(props, keys)
    ensures |r| == |keys| && forall i :: 0 <= i < |keys| ==> r[i] == props[keys[i]]
  {
    if keys == [] then []
    else
      assert forall i :: 0 <= i < |keys[1..]| ==> keys[1..][i] == keys[i + 1];
      [props[keys[0]]] + ValuesOf(props, keys[1..])
  }

  /** Nodes `a` and `b` both carry `label` and equal values for all of `keys`. */
  predicate Clash(nodes: seq<Node>, labelId: int, keys: seq<int>, a: nat, b: nat)
    requires a < |nodes| && b < |nodes|
  {
    && labelId in nodes[a].labels && labelId in nodes[b].labels
    && HasAll(nodes[a].props, keys) && HasAll(nodes[b].props, keys)
    && ValuesOf(nodes[a].props, keys) == ValuesOf(nodes[b].props, keys)
  }

  /** No two distinct labelled nodes share values for all the keys. */
  predicate UniqueOn(nodes: seq<Node>, labelId: int, keys: seq<int>) {
    forall a, b :: 0 <= a < b < |nodes| ==> !Clash(nodes, labelId, keys, a, b)
  }

  /** Every labelled node has all the keys. */
  predicate NodesHave(nodes: seq<Node>, labelId: int, keys: seq<int>) {
    forall a :: 0 <= a < |nodes| && labelId in nodes[a].labels ==> HasAll(nodes[a].props, keys)
  }

  /** Every relationship of the type has all the keys. */
  predicate RelsHave(rels: seq<Relationship>, relType: int, keys: seq<int>) {
    forall a :: 0 <= a < |rels| && rels[a].relType == relType ==> HasAll(rels[a].props, keys)
  }

  /** The data satisfies the constraint. */
  predicate Satisfied(data: Data, c: Constraint)
    requires Fits(c)
  {
    match c.kind
    case Uniqueness => UniqueOn(data.nodes, c.schema.labelId, c.schema.props)
    case NodeKey => UniqueOn(data.nodes, c.schema.labelId, c.schema.props) && NodesHave(data.nodes, c.schema.labelId, c.schema.props)
    case NodeExistence => NodesHave(data.nodes, c.schema.labelId, c.schema.props)
    case RelExistence => RelsHave(data.rels, c.schema.relType, c.schema.props)
  }

  /** Scans the nodes for a pair that breaks uniqueness. */
  method CheckUnique(nodes: seq<Node>, labelId: int, keys: seq<int>) returns (ok: bool)
    ensures ok <==> UniqueOn(nodes, labelId, keys)
  {
    for a := 0 to |nodes|
      invariant forall a', b :: 0 <= a' < a && a' < b < |nodes| ==> !Clash(nodes, labelId, keys, a', b)
    {
      for b := a + 1 to |nodes|
        invariant forall b' :: a < b' < b ==> !Clash(nodes, labelId, keys, a, b')
      {
        if Clash(nodes, labelId, keys, a, b) {
          return false;
        }
      }
    }
    return true;
  }

  /** Scans the nodes for a labelled one that lacks a key. */
  method CheckNodesHave(nodes: seq<Node>, labelId: int, keys: seq<int>) returns (ok: bool)
    ensures ok <==> NodesHave(nodes, labelId, keys)
  {
    for a := 0 to |nodes|
      invariant forall a' :: 0 <= a' < a && labelId in nodes[a'].labels ==> HasAll(nodes[a'].props, keys)
    {
      if labelId in nodes[a].labels && !HasAll(nodes[a].props, keys) {
        return false;
      }
    }
    return true;
  }

  /** Scans the relationships for one of the type that lacks a key. */
  method CheckRelsHave(rels: seq<Relationship>, relType: int, keys: seq<int>) returns (ok: bool)
    ensures ok <==> RelsHave(rels, relType, keys)
  {
    for a := 0 to |rels|
      invariant forall a' :: 0 <= a' < a && rels[a'].relType == relType ==> HasAll(rels[a'].props, keys)
    {
      if rels[a].relType == relType && !HasAll(rels[a].props, keys) {
        return false;
      }
    }
    return true;
  }

  /** Validation of existing data when a constraint is created. */
  method Validate(data: Data, c: Constraint) returns (ok: bool)
    requires Fits(c)
    ensures ok <==> Satisfied(data, c)
  {
    match c.kind
    case Uniqueness =>
      ok := CheckUnique(data.nodes, c.schema.labelId, c.schema.props);
    case NodeKey =>
      ok := CheckUnique(data.nodes, c.schema.labelId, c.schema.props);
      if ok {
        ok := CheckNodesHave(data.nodes, c.schema.labelId, c.schema.props);
      }
    case NodeExistence =>
      ok := CheckNodesHave(data.nodes, c.schema.labelId, c.schema.props);
    case RelExistence =>
      ok := CheckRelsHave(data.rels, c.schema.relType, c.schema.props);
  }
}
