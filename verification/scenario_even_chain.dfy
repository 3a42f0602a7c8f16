/**
 The chain (a)-(b)-(c), searched in all directions at the even depth 2.
 */
module EvenChainScenario {
  import opened Wrappers
  import opened PathFinding
  import opened TestGraphs

  const A: NodeId := 0
  const B: NodeId := 1
  const C: NodeId := 2

  /** `a,b,c` */
  function Chain0(): seq<Relationship> { [Rel(0, A, B), Rel(1, B, C)] }

  function Fixture(): Graph {
    Graph(Chain0())
  }

  lemma FixtureWellFormed()
    ensures WellFormed(Fixture())
  {
    assert NumberedFrom(Chain0(), 0);
    NumberedWellFormed(Fixture());
  }

  /** The steps `n -r- m` that `AllTypesAndDirections()` allows in the fixture. */
  predicate AnyStep(n: NodeId, r: Relationship, m: NodeId) {
    || (n == A && ((r == Rel(0, A, B) && m == B)))
    || (n == B && ((r == Rel(0, A, B) && m == A) || (r == Rel(1, B, C) && m == C)))
    || (n == C && ((r == Rel(1, B, C) && m == B)))
  }

  lemma AnyStepChain0(r: Relationship, n: NodeId, m: NodeId)
    requires r in Chain0() && Follow(AllTypesAndDirections(), r, n) == Some(m)
    ensures AnyStep(n, r, m)
  {
    var i :| 0 <= i < |Chain0()| && Chain0()[i] == r;
    assert i in {0, 1};
  }

  /** Every step the expander allows in the fixture is one of the listed ones. */
  lemma AnyStepComplete(r: Relationship, n: NodeId, m: NodeId)
    requires r in Fixture().rels && Follow(AllTypesAndDirections(), r, n) == Some(m)
    ensures AnyStep(n, r, m)
  {
    if r in Chain0() { AnyStepChain0(r, n, m); }
  }

  /** `a,b,c` */
  function Route(): Path {
    Path([A, B, C], [Rel(0, A, B), Rel(1, B, C)])
  }

  lemma RouteIsPath()
    ensures IsSimplePathOfLength(Fixture(), AllTypesAndDirections(), A, C, 2, Route())
  {
    var g, x, p := Fixture(), AllTypesAndDirections(), Route();
    assert p.rels[0] == Chain0()[0];
    assert p.rels[1] == Chain0()[1];
    forall i | 0 <= i < |p.rels| ensures StepOk(g, x, p, i) {
    }
  }

  lemma OnlyRoute(q: Path)
    requires IsSimplePathOfLength(Fixture(), AllTypesAndDirections(), A, C, 2, q)
    ensures q == Route()
  {
    var g, x := Fixture(), AllTypesAndDirections();
    assert StepOk(g, x, q, 0) && StepOk(g, x, q, 1);
    var n, r := q.nodes, q.rels;
    AnyStepComplete(r[0], n[0], n[1]);
    AnyStepComplete(r[1], n[1], n[2]);
    assert n == [n[0], n[1], n[2]];
    assert r == [r[0], r[1]];
  }

  /** Depth 2 in all directions from a to c: only `a,b,c`. */
  lemma Depth2()
    ensures multiset(FindAllPaths(Fixture(), AllTypesAndDirections(), 2, A, C)) == multiset{Route()}
  {
    FixtureWellFormed();
    RouteIsPath();
    forall q | IsSimplePathOfLength(Fixture(), AllTypesAndDirections(), A, C, 2, q)
      ensures q in [Route()]
    {
      OnlyRoute(q);
    }
    FindAllPathsExactly(Fixture(), AllTypesAndDirections(), 2, A, C, [Route()]);
  }
}

