/**
 Two parallel relationships (a)=(b) and one (a)-(c), searched in all directions at depth 1.
 */
module ParallelRelationshipsScenario {
  import opened Wrappers
  import opened PathFinding
  import opened TestGraphs

  const A: NodeId := 0
  const B: NodeId := 1
  const C: NodeId := 2

  /** `a,b` */
  function Chain0(): seq<Relationship> { [Rel(0, A, B)] }

  /** `a,b` */
  function Chain1(): seq<Relationship> { [Rel(1, A, B)] }

  /** `a,c` */
  function Chain2(): seq<Relationship> { [Rel(2, A, C)] }

  function Fixture(): Graph {
    Graph(Chain0() + Chain1() + Chain2())
  }

  lemma FixtureWellFormed()
    ensures WellFormed(Fixture())
  {
    assert NumberedFrom(Chain0(), 0);
    assert NumberedFrom(Chain1(), 1);
    NumberedConcat(Chain0(), Chain1(), 0);
    assert NumberedFrom(Chain2(), 2);
    NumberedConcat(Chain0() + Chain1(), Chain2(), 0);
    NumberedWellFormed(Fixture());
  }

  /** The steps `n -r- m` that `AllTypesAndDirections()` allows in the fixture. */
  predicate AnyStep(n: NodeId, r: Relationship, m: NodeId) {
    || (n == A && ((r == Rel(0, A, B) && m == B) || (r == Rel(1, A, B) && m == B) || (r == Rel(2, A, C) && m == C)))
    || (n == B && ((r == Rel(0, A, B) && m == A) || (r == Rel(1, A, B) && m == A)))
    || (n == C && ((r == Rel(2, A, C) && m == A)))
  }

  lemma AnyStepChain0(r: Relationship, n: NodeId, m: NodeId)
    requires r in Chain0() && Follow(AllTypesAndDirections(), r, n) == Some(m)
    ensures AnyStep(n, r, m)
  {
    var i :| 0 <= i < |Chain0()| && Chain0()[i] == r;
    assert i in {0};
  }

  lemma AnyStepChain1(r: Relationship, n: NodeId, m: NodeId)
    requires r in Chain1() && Follow(AllTypesAndDirections(), r, n) == Some(m)
    ensures AnyStep(n, r, m)
  {
    var i :| 0 <= i < |Chain1()| && Chain1()[i] == r;
    assert i in {0};
  }

  lemma AnyStepChain2(r: Relationship, n: NodeId, m: NodeId)
    requires r in Chain2() && Follow(AllTypesAndDirections(), r, n) == Some(m)
    ensures AnyStep(n, r, m)
  {
    var i :| 0 <= i < |Chain2()| && Chain2()[i] == r;
    assert i in {0};
  }

  /** Every step the expander allows in the fixture is one of the listed ones. */
  lemma AnyStepComplete(r: Relationship, n: NodeId, m: NodeId)
    requires r in Fixture().rels && Follow(AllTypesAndDirections(), r, n) == Some(m)
    ensures AnyStep(n, r, m)
  {
    if r in Chain0() { AnyStepChain0(r, n, m); }
    if r in Chain1() { AnyStepChain1(r, n, m); }
    if r in Chain2() { AnyStepChain2(r, n, m); }
  }

  /** `a,b` */
  function FirstRoute(): Path {
    Path([A, B], [Rel(0, A, B)])
  }

  /** `a,b` */
  function SecondRoute(): Path {
    Path([A, B], [Rel(1, A, B)])
  }

  lemma FirstRouteIsPath()
    ensures IsSimplePathOfLength(Fixture(), AllTypesAndDirections(), A, B, 1, FirstRoute())
  {
    var g, x, p := Fixture(), AllTypesAndDirections(), FirstRoute();
    assert p.rels[0] == Chain0()[0];
    forall i | 0 <= i < |p.rels| ensures StepOk(g, x, p, i) {
    }
  }

  lemma SecondRouteIsPath()
    ensures IsSimplePathOfLength(Fixture(), AllTypesAndDirections(), A, B, 1, SecondRoute())
  {
    var g, x, p := Fixture(), AllTypesAndDirections(), SecondRoute();
    assert p.rels[0] == Chain1()[0];
    forall i | 0 <= i < |p.rels| ensures StepOk(g, x, p, i) {
    }
  }

  lemma OnlyRoutes(q: Path)
    requires IsSimplePathOfLength(Fixture(), AllTypesAndDirections(), A, B, 1, q)
    ensures q == FirstRoute() || q == SecondRoute()
  {
    var g, x := Fixture(), AllTypesAndDirections();
    assert StepOk(g, x, q, 0);
    var n, r := q.nodes, q.rels;
    AnyStepComplete(r[0], n[0], n[1]);
    assert n == [n[0], n[1]];
    assert r == [r[0]];
  }

  /** Depth 1 in all directions from a to b: one result per parallel relationship, both with the node sequence `a,b`. */
  lemma Depth1()
    ensures multiset(FindAllPaths(Fixture(), AllTypesAndDirections(), 1, A, B)) == multiset{FirstRoute(), SecondRoute()}
  {
    FixtureWellFormed();
    assert FirstRoute().rels[0] != SecondRoute().rels[0];
    FirstRouteIsPath();
    SecondRouteIsPath();
    forall q | IsSimplePathOfLength(Fixture(), AllTypesAndDirections(), A, B, 1, q)
      ensures q in [FirstRoute(), SecondRoute()]
    {
      OnlyRoutes(q);
    }
    FindAllPathsExactly(Fixture(), AllTypesAndDirections(), 1, A, B, [FirstRoute(), SecondRoute()]);
  }

  /** The two results are distinct paths that read the same as text. */
  lemma RoutesReadAlike()
    ensures FirstRoute() != SecondRoute()
    ensures FirstRoute().nodes == SecondRoute().nodes == [A, B]
  {
    assert FirstRoute().rels[0] != SecondRoute().rels[0];
  }
}

