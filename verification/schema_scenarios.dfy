/**
 The schema read/write test cases replayed on the registry, with the tokens the tests
 create: labels `label`, `label2` and `wrongLabel`, relationship type `relationship`,
 and property keys `prop1`, `prop2`, `prop3`.
 */
module SchemaScenarios {
  import opened Wrappers
  import opened SchemaRegistry
  import opened SchemaLaws

  const Label: int := 0
  const Label2: int := 1
  const WrongLabel: int := 2
  const RelType: int := 0
  const Prop1: int := 0
  const Prop2: int := 1
  const Prop3: int := 2

  function NoData(): Data {
    Data([], [])
  }

  /** A transaction's schema change that is known to succeed. */
  function CreateIndex(tx: Tx, s: Schema): (t: Tx)
    requires IndexCreate(tx, s).Ok?
    ensures IndexesGetAll(t) == IndexesGetAll(tx) + {s} && ConstraintsGetAll(t) == ConstraintsGetAll(tx)
  {
    IndexCreate(tx, s).value.0
  }

  function DropIndex(tx: Tx, s: Schema): (t: Tx)
    requires IndexDrop(tx, IndexRef(s)).Ok?
    ensures IndexesGetAll(t) == IndexesGetAll(tx) - {s} && ConstraintsGetAll(t) == ConstraintsGetAll(tx)
  {
    IndexDrop(tx, IndexRef(s)).value
  }

  function CreateConstraint(tx: Tx, c: Constraint): (t: Tx)
    requires Fits(c) && ConstraintCreate(tx, NoData(), c).Ok?
    ensures ConstraintsGetAll(t) == ConstraintsGetAll(tx) + {c}
    ensures IndexesGetAll(t) == IndexesGetAll(tx) + (if IndexBacked(c.kind) then {c.schema} else {})
  {
    ConstraintCreate(tx, NoData(), c).value.0
  }

  function DropConstraint(tx: Tx, c: Constraint): (t: Tx)
    requires ConstraintDrop(tx, c).Ok?
    ensures ConstraintsGetAll(t) == ConstraintsGetAll(tx) - {c}
    ensures IndexesGetAll(t) == IndexesGetAll(tx) - (if IndexBacked(c.kind) then {c.schema} else {})
  {
    ConstraintDrop(tx, c).value
  }

  /** `shouldNotFindNonExistentIndex`. */
  lemma NonExistentIndex()
    ensures Index(Begin(EmptyStore()), Label, [Prop1]) == NoIndex
  {
  }

  /** `shouldSeeIndexFromTransaction`: a committed index and one created in the transaction are both listed. */
  lemma SeeIndexFromTransaction()
    ensures
      var committed := Commit(CreateIndex(Begin(EmptyStore()), LabelSchema(Label, [Prop1])));
      var tx := CreateIndex(Begin(committed), LabelSchema(Label, [Prop2]));
      && Index(tx, Label, [Prop2]).schema.props == [Prop2]
      && |IndexesGetAll(tx)| == 2
  {
    var committed := Commit(CreateIndex(Begin(EmptyStore()), LabelSchema(Label, [Prop1])));
    var tx := CreateIndex(Begin(committed), LabelSchema(Label, [Prop2]));
    assert IndexesGetAll(tx) == {LabelSchema(Label, [Prop1]), LabelSchema(Label, [Prop2])};
  }

  /** `shouldNotSeeDroppedIndexFromTransaction`. */
  lemma NotSeeDroppedIndexFromTransaction()
    ensures
      var committed := Commit(CreateIndex(Begin(EmptyStore()), LabelSchema(Label, [Prop1])));
      var tx := DropIndex(Begin(committed), LabelSchema(Label, [Prop1]));
      Index(tx, Label, [Prop1]) == NoIndex && Index(tx, Label, [Prop2]) == NoIndex
  {
  }

  /** `shouldListAllIndexes`: committed minus dropped plus created, inside the transaction. */
  lemma ListAllIndexes()
    ensures
      var t0 := CreateIndex(Begin(EmptyStore()), LabelSchema(Label, [Prop1]));
      var t1 := CreateIndex(t0, LabelSchema(Label2, [Prop1]));
      var t2 := CreateIndex(t1, LabelSchema(Label, [Prop2]));
      var u0 := CreateIndex(Begin(Commit(t2)), LabelSchema(Label2, [Prop2]));
      var u1 := DropIndex(u0, LabelSchema(Label, [Prop2]));
      IndexesGetAll(u1) == {LabelSchema(Label, [Prop1]), LabelSchema(Label2, [Prop1]), LabelSchema(Label2, [Prop2])}
  {
    var t0 := CreateIndex(Begin(EmptyStore()), LabelSchema(Label, [Prop1]));
    var t1 := CreateIndex(t0, LabelSchema(Label2, [Prop1]));
    var t2 := CreateIndex(t1, LabelSchema(Label, [Prop2]));
    var u0 := CreateIndex(Begin(Commit(t2)), LabelSchema(Label2, [Prop2]));
    assert IndexesGetAll(u0) == {LabelSchema(Label, [Prop1]), LabelSchema(Label2, [Prop1]), LabelSchema(Label, [Prop2]), LabelSchema(Label2, [Prop2])};
  }

  /** `shouldListIndexesByLabel`: the listing for `label` leaves out other labels and the index dropped in the transaction. */
  lemma ListIndexesByLabel()
    ensures
      var t0 := CreateConstraint(Begin(EmptyStore()), Constraint(Uniqueness, LabelSchema(WrongLabel, [Prop1])));
      var t1 := CreateIndex(t0, LabelSchema(Label, [Prop1]));
      var t2 := CreateIndex(t1, LabelSchema(Label, [Prop2]));
      var u0 := CreateIndex(Begin(Commit(t2)), LabelSchema(Label, [Prop3]));
      var u1 := CreateIndex(u0, LabelSchema(WrongLabel, [Prop2]));
      var u2 := DropIndex(u1, LabelSchema(Label, [Prop2]));
      IndexesGetForLabel(u2, Label) == {LabelSchema(Label, [Prop1]), LabelSchema(Label, [Prop3])}
  {
    var t0 := CreateConstraint(Begin(EmptyStore()), Constraint(Uniqueness, LabelSchema(WrongLabel, [Prop1])));
    var t1 := CreateIndex(t0, LabelSchema(Label, [Prop1]));
    var t2 := CreateIndex(t1, LabelSchema(Label, [Prop2]));
    var u0 := CreateIndex(Begin(Commit(t2)), LabelSchema(Label, [Prop3]));
    var u1 := CreateIndex(u0, LabelSchema(WrongLabel, [Prop2]));
    assert Constraint(Uniqueness, LabelSchema(Label, [Prop2])) !in ConstraintsGetAll(u1);
    var u2 := DropIndex(u1, LabelSchema(Label, [Prop2]));
    assert IndexesGetAll(u2) == {LabelSchema(WrongLabel, [Prop1]), LabelSchema(Label, [Prop1]), LabelSchema(Label, [Prop3]), LabelSchema(WrongLabel, [Prop2])};
  }

  /** `shouldCreateUniquePropertyConstraint` and `shouldDropUniquePropertyConstraint`. */
  lemma CreateThenDropUniqueness()
    ensures
      var c := Constraint(Uniqueness, LabelSchema(Label, [Prop1]));
      var created := Commit(CreateConstraint(Begin(EmptyStore()), c));
      var dropped := Commit(DropConstraint(Begin(created), c));
      && ConstraintExists(Begin(created), c) && ConstraintsGetForLabel(Begin(created), Label) == {c}
      && !ConstraintExists(Begin(dropped), c) && ConstraintsGetForLabel(Begin(dropped), Label) == {}
  {
    var c := Constraint(Uniqueness, LabelSchema(Label, [Prop1]));
    var created := Commit(CreateConstraint(Begin(EmptyStore()), c));
    assert ConstraintsGetAll(Begin(created)) == {c};
  }

  /** `shouldCreateRelationshipPropertyExistenceConstraint` and `shouldDropRelationshipPropertyExistenceConstraint`. */
  lemma CreateThenDropRelExistence()
    ensures
      var c := Constraint(RelExistence, TypeSchema(RelType, [Prop1]));
      var created := Commit(CreateConstraint(Begin(EmptyStore()), c));
      var dropped := Commit(DropConstraint(Begin(created), c));
      && ConstraintExists(Begin(created), c) && ConstraintsGetForRelationshipType(Begin(created), RelType) == {c}
      && !ConstraintExists(Begin(dropped), c) && ConstraintsGetForRelationshipType(Begin(dropped), RelType) == {}
  {
    var c := Constraint(RelExistence, TypeSchema(RelType, [Prop1]));
    var created := Commit(CreateConstraint(Begin(EmptyStore()), c));
    assert ConstraintsGetAll(Begin(created)) == {c};
  }

  /** `shouldListAllConstraints`: a uniqueness and an existence constraint on one schema are both listed. */
  lemma ListAllConstraints()
    ensures
      var t0 := CreateConstraint(Begin(EmptyStore()), Constraint(Uniqueness, LabelSchema(Label, [Prop1])));
      var t1 := CreateConstraint(t0, Constraint(Uniqueness, LabelSchema(Label2, [Prop1])));
      var t2 := CreateConstraint(t1, Constraint(Uniqueness, LabelSchema(Label, [Prop2])));
      var u0 := CreateConstraint(Begin(Commit(t2)), Constraint(NodeExistence, LabelSchema(Label, [Prop1])));
      var u1 := DropConstraint(u0, Constraint(Uniqueness, LabelSchema(Label, [Prop2])));
      ConstraintsGetAll(u1) == {
        Constraint(Uniqueness, LabelSchema(Label, [Prop1])),
        Constraint(Uniqueness, LabelSchema(Label2, [Prop1])),
        Constraint(NodeExistence, LabelSchema(Label, [Prop1]))}
  {
    var t0 := CreateConstraint(Begin(EmptyStore()), Constraint(Uniqueness, LabelSchema(Label, [Prop1])));
    var t1 := CreateConstraint(t0, Constraint(Uniqueness, LabelSchema(Label2, [Prop1])));
    var t2 := CreateConstraint(t1, Constraint(Uniqueness, LabelSchema(Label, [Prop2])));
    var u0 := CreateConstraint(Begin(Commit(t2)), Constraint(NodeExistence, LabelSchema(Label, [Prop1])));
    assert ConstraintsGetAll(u0) == {
      Constraint(Uniqueness, LabelSchema(Label, [Prop1])),
      Constraint(Uniqueness, LabelSchema(Label2, [Prop1])),
      Constraint(Uniqueness, LabelSchema(Label, [Prop2])),
      Constraint(NodeExistence, LabelSchema(Label, [Prop1]))};
  }

  /** `shouldListConstraintsByLabel`. */
  lemma ListConstraintsByLabel()
    ensures
      var t0 := CreateConstraint(Begin(EmptyStore()), Constraint(Uniqueness, LabelSchema(WrongLabel, [Prop1])));
      var t1 := CreateConstraint(t0, Constraint(Uniqueness, LabelSchema(Label, [Prop1])));
      var t2 := CreateConstraint(t1, Constraint(Uniqueness, LabelSchema(Label, [Prop2])));
      var u0 := CreateConstraint(Begin(Commit(t2)), Constraint(NodeExistence, LabelSchema(Label, [Prop1])));
      var u1 := CreateConstraint(u0, Constraint(NodeExistence, LabelSchema(WrongLabel, [Prop1])));
      var u2 := DropConstraint(u1, Constraint(Uniqueness, LabelSchema(Label, [Prop2])));
      ConstraintsGetForLabel(u2, Label) == {
        Constraint(Uniqueness, LabelSchema(Label, [Prop1])),
        Constraint(NodeExistence, LabelSchema(Label, [Prop1]))}
  {
    var t0 := CreateConstraint(Begin(EmptyStore()), Constraint(Uniqueness, LabelSchema(WrongLabel, [Prop1])));
    var t1 := CreateConstraint(t0, Constraint(Uniqueness, LabelSchema(Label, [Prop1])));
    var t2 := CreateConstraint(t1, Constraint(Uniqueness, LabelSchema(Label, [Prop2])));
    var u0 := CreateConstraint(Begin(Commit(t2)), Constraint(NodeExistence, LabelSchema(Label, [Prop1])));
    var u1 := CreateConstraint(u0, Constraint(NodeExistence, LabelSchema(WrongLabel, [Prop1])));
    var u2 := DropConstraint(u1, Constraint(Uniqueness, LabelSchema(Label, [Prop2])));
    assert ConstraintsGetAll(u2) == {
      Constraint(Uniqueness, LabelSchema(WrongLabel, [Prop1])),
      Constraint(Uniqueness, LabelSchema(Label, [Prop1])),
      Constraint(NodeExistence, LabelSchema(Label, [Prop1])),
      Constraint(NodeExistence, LabelSchema(WrongLabel, [Prop1]))};
  }

  /** `shouldFailIndexCreateForRepeatedProperties` and the uniqueness and node key variants. */
  lemma RepeatedPropertiesFail()
    ensures IndexCreate(Begin(EmptyStore()), LabelSchema(Label, [Prop1, Prop1])) == Err(RepeatedProperty)
    ensures ConstraintCreate(Begin(EmptyStore()), NoData(), Constraint(Uniqueness, LabelSchema(Label, [Prop1, Prop1]))) == Err(RepeatedProperty)
    ensures ConstraintCreate(Begin(EmptyStore()), NoData(), Constraint(NodeKey, LabelSchema(Label, [Prop1, Prop1]))) == Err(RepeatedProperty)
  {
    assert Repeated([Prop1, Prop1]) by {
      assert [Prop1, Prop1][0] == [Prop1, Prop1][1];
    }
  }

  /** Two nodes labelled `label`, both with `prop1 = 42`. */
  function DuplicateData(): Data {
    Data([Node({Label}, map[Prop1 := 42]), Node({Label}, map[Prop1 := 42])], [])
  }

  /** One node labelled `label` without properties. */
  function BareNodeData(): Data {
    Data([Node({Label}, map[])], [])
  }

  /** Two unlabelled nodes and a `relationship` between them without properties. */
  function BareRelData(): Data {
    Data([Node({}, map[]), Node({}, map[])], [Relationship(RelType, map[])])
  }

  /** `shouldFailToCreateUniqueConstraintIfConstraintNotSatisfied`. */
  lemma DuplicateValuesFail()
    ensures ConstraintCreate(Begin(EmptyStore()), DuplicateData(), Constraint(Uniqueness, LabelSchema(Label, [Prop1]))) == Err(Violated)
  {
    assert Clash(DuplicateData().nodes, Label, [Prop1], 0, 1);
  }

  /** `shouldFailToNodeKeyConstraintIfConstraintNotSatisfied` and `shouldFailToCreatePropertyExistenceConstraintIfConstraintNotSatisfied`. */
  lemma MissingPropertyFails()
    ensures ConstraintCreate(Begin(EmptyStore()), BareNodeData(), Constraint(NodeKey, LabelSchema(Label, [Prop1]))) == Err(Violated)
    ensures ConstraintCreate(Begin(EmptyStore()), BareNodeData(), Constraint(NodeExistence, LabelSchema(Label, [Prop1]))) == Err(Violated)
  {
    assert !HasAll(BareNodeData().nodes[0].props, [Prop1]) by {
      assert [Prop1][0] !in BareNodeData().nodes[0].props;
    }
  }

  /** `shouldFailToCreateRelationshipPropertyExistenceConstraintIfConstraintNotSatisfied`. */
  lemma MissingRelPropertyFails()
    ensures ConstraintCreate(Begin(EmptyStore()), BareRelData(), Constraint(RelExistence, TypeSchema(RelType, [Prop1]))) == Err(Violated)
  {
    assert !HasAll(BareRelData().rels[0].props, [Prop1]) by {
      assert [Prop1][0] !in BareRelData().rels[0].props;
    }
  }
}
