/**
 Laws of the schema registry that hold for every transaction: the invariant each
 write keeps, what a later transaction sees of a committed change, and the conflicts
 between indexes and the constraints that own them.
 */
module SchemaLaws {
  import opened Wrappers
  import opened SchemaRegistry

  /** The empty schema a database starts with. */
  function EmptyStore(): (st: Store)
    ensures IndexesGetAll(Begin(st)) == {} && ConstraintsGetAll(Begin(st)) == {}
  {
    Store(map[], {})
  }

  lemma EmptyStoreValid()
    ensures Valid(Begin(EmptyStore()))
  {
  }

  // ---------------------------------------------------------------------------
  // The invariant

  lemma {:induction false} IndexCreateKeepsValid(tx: Tx, s: Schema)
    requires Valid(tx) && IndexCreate(tx, s).Ok?
    ensures Valid(IndexCreate(tx, s).value.0)
  {
    var t := IndexCreate(tx, s).value.0;
    assert ConstraintsGetAll(t) == ConstraintsGetAll(tx);
    assert IndexesGetAll(tx) <= IndexesGetAll(t);
  }

  lemma {:induction false} IndexDropKeepsValid(tx: Tx, ref: IndexRef)
    requires Valid(tx) && IndexDrop(tx, ref).Ok?
    ensures Valid(IndexDrop(tx, ref).value)
  {
    var t := IndexDrop(tx, ref).value;
    assert ConstraintsGetAll(t) == ConstraintsGetAll(tx);
    assert forall c :: c in ConstraintsGetAll(tx) && IndexBacked(c.kind) ==> c.schema != ref.schema;
  }

  lemma {:induction false} ConstraintCreateKeepsValid(tx: Tx, data: Data, c: Constraint)
    requires Valid(tx) && Fits(c) && ConstraintCreate(tx, data, c).Ok?
    ensures Valid(ConstraintCreate(tx, data, c).value.0)
  {
    var t := ConstraintCreate(tx, data, c).value.0;
    assert ConstraintsGetAll(t) == ConstraintsGetAll(tx) + {c};
    assert IndexesGetAll(tx) <= IndexesGetAll(t);
    assert IndexBacked(c.kind) ==> forall d :: d in ConstraintsGetAll(tx) && IndexBacked(d.kind) ==> d.schema != c.schema;
  }

  lemma {:induction false} ConstraintDropKeepsValid(tx: Tx, c: Constraint)
    requires Valid(tx) && ConstraintDrop(tx, c).Ok?
    ensures Valid(ConstraintDrop(tx, c).value)
  {
    var t := ConstraintDrop(tx, c).value;
    assert ConstraintsGetAll(t) == ConstraintsGetAll(tx) - {c};
    forall d | d in ConstraintsGetAll(t) && IndexBacked(d.kind)
      ensures d.schema in IndexesGetAll(t)
    {
      assert d != c;
      if IndexBacked(c.kind) {
        assert d.schema != c.schema;
      }
    }
  }

  /** What one transaction committed, the next one starts from: the invariant survives commit. */
  lemma CommitKeepsValid(tx: Tx)
    requires Valid(tx)
    ensures Valid(Begin(Commit(tx)))
    ensures IndexesGetAll(Begin(Commit(tx))) == IndexesGetAll(tx)
    ensures ConstraintsGetAll(Begin(Commit(tx))) == ConstraintsGetAll(tx)
  {
  }

  // ---------------------------------------------------------------------------
  // Lookups and listings agree

  /**
   `index(label, props)` finds an index exactly when `indexesGetForLabel(label)` lists
   its schema, and a found index reports a population state.
   */
  lemma IndexFoundIffListed(tx: Tx, labelId: int, props: seq<int>)
    ensures Index(tx, labelId, props) != NoIndex <==> LabelSchema(labelId, props) in IndexesGetForLabel(tx, labelId)
    ensures Index(tx, labelId, props) != NoIndex ==> IndexGetState(tx, Index(tx, labelId, props)).Ok?
    ensures Index(tx, labelId, props) == NoIndex ==> IndexGetState(tx, Index(tx, labelId, props)) == Err(NoSuchIndex)
  {
  }

  /**
   `constraintExists(c)` holds exactly when `c` is listed under its own label (node
   constraints) or its own relationship type (relationship constraints), and under no other.
   */
  lemma ConstraintExistsIffListed(tx: Tx, c: Constraint)
    ensures c.schema.LabelSchema? ==> (ConstraintExists(tx, c) <==> c in ConstraintsGetForLabel(tx, c.schema.labelId))
    ensures c.schema.TypeSchema? ==> (ConstraintExists(tx, c) <==> c in ConstraintsGetForRelationshipType(tx, c.schema.relType))
    ensures forall l :: c in ConstraintsGetForLabel(tx, l) ==> ConstraintExists(tx, c) && c.schema == LabelSchema(l, c.schema.props)
    ensures forall t :: c in ConstraintsGetForRelationshipType(tx, t) ==> ConstraintExists(tx, c) && c.schema == TypeSchema(t, c.schema.props)
  {
  }

  // ---------------------------------------------------------------------------
  // Indexes across transactions

  /** A created index is found by its label and properties in its own and in every later transaction. */
  lemma CreatedIndexFound(tx: Tx, labelId: int, props: seq<int>)
    requires IndexCreate(tx, LabelSchema(labelId, props)).Ok?
    ensures var (t, ref) := IndexCreate(tx, LabelSchema(labelId, props)).value;
      && Index(t, labelId, props) == ref
      && Index(Begin(Commit(t)), labelId, props) == ref
      && ref != NoIndex
  {
  }

  /** A new index is `POPULATING` within the transaction that created it, and is committed as such. */
  lemma CreatedIndexPopulating(tx: Tx, s: Schema)
    requires IndexCreate(tx, s).Ok?
    ensures var (t, ref) := IndexCreate(tx, s).value;
      && IndexGetState(t, ref) == Ok(Populating)
      && IndexGetState(Begin(Commit(t)), ref) == Ok(Populating)
  {
  }

  /** After a committed drop, the lookup gives `NO_INDEX`, and dropping it again fails. */
  lemma DroppedIndexGone(tx: Tx, labelId: int, props: seq<int>)
    requires IndexDrop(tx, IndexRef(LabelSchema(labelId, props))).Ok?
    ensures var t := IndexDrop(tx, IndexRef(LabelSchema(labelId, props))).value;
      && Index(Begin(Commit(t)), labelId, props) == NoIndex
      && IndexDrop(Begin(Commit(t)), IndexRef(LabelSchema(labelId, props))) == Err(NoSuchIndex)
  {
  }

  /** `NO_INDEX` can never be dropped. */
  lemma DropNoIndexFails(tx: Tx)
    ensures IndexDrop(tx, NoIndex).Err?
  {
  }

  /** Once an index on a schema is committed, creating another one there fails. */
  lemma CreateExistingIndexFails(tx: Tx, s: Schema)
    requires IndexCreate(tx, s).Ok?
    ensures IndexCreate(Begin(Commit(IndexCreate(tx, s).value.0)), s) == Err(AlreadyIndexed)
  {
  }

  // ---------------------------------------------------------------------------
  // Indexes and the constraints that own them

  /** An index blocks a uniqueness constraint on its schema. */
  lemma IndexBlocksUniqueness(tx: Tx, data: Data, s: Schema)
    requires s.LabelSchema? && s in IndexesGetAll(tx)
    ensures ConstraintCreate(tx, data, Constraint(Uniqueness, s)).Err?
  {
  }

  /** A uniqueness constraint blocks an index on its schema. */
  lemma UniquenessBlocksIndex(tx: Tx, s: Schema)
    requires Valid(tx) && Constraint(Uniqueness, s) in ConstraintsGetAll(tx)
    ensures IndexCreate(tx, s).Err?
  {
    assert s in IndexesGetAll(tx);
  }

  /** The index that enforces a uniqueness constraint is found by lookup and cannot be dropped. */
  lemma OwnedIndexUndroppable(tx: Tx, labelId: int, props: seq<int>)
    requires Valid(tx) && Constraint(Uniqueness, LabelSchema(labelId, props)) in ConstraintsGetAll(tx)
    ensures Index(tx, labelId, props) == IndexRef(LabelSchema(labelId, props))
    ensures IndexDrop(tx, Index(tx, labelId, props)) == Err(OwnedByConstraint)
  {
    var c := Constraint(Uniqueness, LabelSchema(labelId, props));
    assert c.schema in IndexesGetAll(tx);
    assert OwnedIndex(tx, c.schema);
  }

  /** A uniqueness and an existence constraint on the same schema coexist. */
  lemma UniquenessAndExistenceCoexist(tx: Tx, data: Data, s: Schema)
    requires s.LabelSchema? && Constraint(Uniqueness, s) in ConstraintsGetAll(tx)
    requires Constraint(NodeExistence, s) !in ConstraintsGetAll(tx) && NodesHave(data.nodes, s.labelId, s.props)
    ensures ConstraintCreate(tx, data, Constraint(NodeExistence, s)).Ok?
    ensures var t := ConstraintCreate(tx, data, Constraint(NodeExistence, s)).value.0;
      ConstraintsGetForLabel(t, s.labelId) >= {Constraint(Uniqueness, s), Constraint(NodeExistence, s)}
  {
  }

  // ---------------------------------------------------------------------------
  // Constraints across transactions

  /** A created constraint exists in later transactions and is listed for its label or type. */
  lemma CreatedConstraintListed(tx: Tx, data: Data, c: Constraint)
    requires Fits(c) && ConstraintCreate(tx, data, c).Ok?
    ensures var later := Begin(Commit(ConstraintCreate(tx, data, c).value.0));
      && ConstraintExists(later, c)
      && (c.schema.LabelSchema? ==> ConstraintsGetForLabel(later, c.schema.labelId) == ConstraintsGetForLabel(tx, c.schema.labelId) + {c})
      && (c.schema.TypeSchema? ==> ConstraintsGetForRelationshipType(later, c.schema.relType) == ConstraintsGetForRelationshipType(tx, c.schema.relType) + {c})
  {
  }

  /** A dropped constraint no longer exists in later transactions, is no longer listed, and takes its index with it. */
  lemma DroppedConstraintGone(tx: Tx, c: Constraint)
    requires ConstraintDrop(tx, c).Ok?
    ensures var later := Begin(Commit(ConstraintDrop(tx, c).value));
      && !ConstraintExists(later, c)
      && (c.schema.LabelSchema? ==> ConstraintsGetForLabel(later, c.schema.labelId) == ConstraintsGetForLabel(tx, c.schema.labelId) - {c})
      && (c.schema.TypeSchema? ==> ConstraintsGetForRelationshipType(later, c.schema.relType) == ConstraintsGetForRelationshipType(tx, c.schema.relType) - {c})
      && (IndexBacked(c.kind) ==> c.schema !in IndexesGetAll(later))
  {
  }

  /** Within its own transaction a new constraint exists and is listed beside every constraint seen before it. */
  lemma ConstraintSeenInTransaction(tx: Tx, data: Data, c: Constraint)
    requires Fits(c) && ConstraintCreate(tx, data, c).Ok?
    ensures var t := ConstraintCreate(tx, data, c).value.0;
      && ConstraintExists(t, c)
      && (forall d :: ConstraintExists(tx, d) ==> ConstraintExists(t, d))
      && (c.schema.LabelSchema? ==> ConstraintsGetForLabel(t, c.schema.labelId) == ConstraintsGetForLabel(tx, c.schema.labelId) + {c})
      && (c.schema.TypeSchema? ==> ConstraintsGetForRelationshipType(t, c.schema.relType) == ConstraintsGetForRelationshipType(tx, c.schema.relType) + {c})
  {
  }

  /** Within the transaction that dropped it a constraint no longer exists and is no longer listed; the others stay. */
  lemma DroppedConstraintUnseenInTransaction(tx: Tx, c: Constraint)
    requires ConstraintDrop(tx, c).Ok?
    ensures var t := ConstraintDrop(tx, c).value;
      && !ConstraintExists(t, c)
      && (forall d :: d != c ==> (ConstraintExists(t, d) <==> ConstraintExists(tx, d)))
      && (c.schema.LabelSchema? ==> ConstraintsGetForLabel(t, c.schema.labelId) == ConstraintsGetForLabel(tx, c.schema.labelId) - {c})
      && (c.schema.TypeSchema? ==> ConstraintsGetForRelationshipType(t, c.schema.relType) == ConstraintsGetForRelationshipType(tx, c.schema.relType) - {c})
  {
  }

  /** A repeated property key is refused by index, uniqueness and node key creation. */
  lemma RepeatedPropertyRefused(tx: Tx, data: Data, s: Schema)
    requires s.LabelSchema? && Repeated(s.props)
    ensures IndexCreate(tx, s) == Err(RepeatedProperty)
    ensures ConstraintCreate(tx, data, Constraint(Uniqueness, s)) == Err(RepeatedProperty)
    ensures ConstraintCreate(tx, data, Constraint(NodeKey, s)) == Err(RepeatedProperty)
  {
  }

  // ---------------------------------------------------------------------------
  // Constraints against existing data

  /** Two labelled nodes with equal values refuse a uniqueness (and a node key) constraint. */
  lemma DuplicateValuesRefused(tx: Tx, data: Data, s: Schema, a: nat, b: nat)
    requires s.LabelSchema? && a < b < |data.nodes| && Clash(data.nodes, s.labelId, s.props, a, b)
    ensures ConstraintCreate(tx, data, Constraint(Uniqueness, s)).Err?
    ensures ConstraintCreate(tx, data, Constraint(NodeKey, s)).Err?
  {
    assert !UniqueOn(data.nodes, s.labelId, s.props);
  }

  /** A labelled node missing a key refuses a node key and a node existence constraint. */
  lemma MissingPropertyRefused(tx: Tx, data: Data, s: Schema, a: nat)
    requires s.LabelSchema? && a < |data.nodes| && s.labelId in data.nodes[a].labels && !HasAll(data.nodes[a].props, s.props)
    ensures ConstraintCreate(tx, data, Constraint(NodeKey, s)).Err?
    ensures ConstraintCreate(tx, data, Constraint(NodeExistence, s)).Err?
  {
    assert !NodesHave(data.nodes, s.labelId, s.props);
  }

  /** A relationship of the type missing a key refuses a relationship existence constraint. */
  lemma MissingRelPropertyRefused(tx: Tx, data: Data, s: Schema, a: nat)
    requires s.TypeSchema? && a < |data.rels| && data.rels[a].relType == s.relType && !HasAll(data.rels[a].props, s.props)
    ensures ConstraintCreate(tx, data, Constraint(RelExistence, s)).Err?
  {
    assert !RelsHave(data.rels, s.relType, s.props);
  }
}
