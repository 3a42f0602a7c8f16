/**
 Two neighbouring nodes (a)-(b), searched in all directions at depth 1.
 */
module NeighbourScenario {
  import opened Wrappers
  import opened PathFinding
  import opened TestGraphs

  const A: NodeId := 0
  const B: NodeId := 1

  /** `a,b` */
  function Chain0(): seq<Relationship> { [Rel(0, A, B)] }

  function Fixture(): Graph {
    Graph(Chain0())
  }

  lemma FixtureWellFormed()
    ensures WellFormed(Fixture())
  {
    assert NumberedFrom(Chain0(), 0);
    NumberedWellFormed(Fixture());
  }

  /** The steps `n -r- m` that `AllTypesAndDirections()` allows in the fixture. */
  predicate AnyStep(n: NodeId, r: Relationship, m: NodeId) {
    || (n == A && ((r == Rel(0, A, B) && m == B)))
    || (n == B && ((r == Rel(0, A, B) && m == A)))
  }

  lemma AnyStepChain0(r: Relationship, n: NodeId, m: NodeId)
    requires r in Chain0() && Follow(AllTypesAndDirections(), r, n) == Some(m)
    ensures AnyStep(n, r, m)
  {
    var i :| 0 <= i < |Chain0()| && Chain0()[i] == r;
    assert i in {0};
  }

  /** Every step the expander allows in the fixture is one of the listed ones. */
  lemma AnyStepComplete(r: Relationship, n: NodeId, m: NodeId)
    requires r in Fixture().rels && Follow(AllTypesAndDirections(), r, n) == Some(m)
    ensures AnyStep(n, r, m)
  {
    if r in Chain0() { AnyStepChain0(r, n, m); }
  }

  /** `a,b` */
  function Route(): Path {
    Path([A, B], [Rel(0, A, B)])
  }

  lemma RouteIsPath()
    ensures IsSimplePathOfLength(Fixture(), AllTypesAndDirections(), A, B, 1, Route())
  {
    var g, x, p := Fixture(), AllTypesAndDirections(), Route();
    assert p.rels[0] == Chain0()[0];
    forall i | 0 <= i < |p.rels| ensures StepOk(g, x, p, i) {
    }
  }

  lemma OnlyRoute(q: Path)
    requires IsSimplePathOfLength(Fixture(), AllTypesAndDirections(), A, B, 1, q)
    ensures q == Route()
  {
    var g, x := Fixture(), AllTypesAndDirections();
    assert StepOk(g, x, q, 0);
    var n, r := q.nodes, q.rels;
    AnyStepComplete(r[0], n[0], n[1]);
    assert n == [n[0], n[1]];
    assert r == [r[0]];
  }

  /** Depth 1 in all directions from a to b: only `a,b`. */
  lemma Depth1()
    ensures multiset(FindAllPaths(Fixture(), AllTypesAndDirections(), 1, A, B)) == multiset{Route()}
  {
    FixtureWellFormed();
    RouteIsPath();
    forall q | IsSimplePathOfLength(Fixture(), AllTypesAndDirections(), A, B, 1, q)
      ensures q in [Route()]
    {
      OnlyRoute(q);
    }
    FindAllPathsExactly(Fixture(), AllTypesAndDirections(), 1, A, B, [Route()]);
  }
}

