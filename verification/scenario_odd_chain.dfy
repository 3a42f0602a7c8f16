/**
 The chain (a)-(b)-(c)-(d), searched in all directions at the odd depth 3.
 */
module OddChainScenario {
  import opened Wrappers
  import opened PathFinding
  import opened TestGraphs

  const A: NodeId := 0
  const B: NodeId := 1
  const C: NodeId := 2
  const D: NodeId := 3

  /** `a,b,c,d` */
  function Chain0(): seq<Relationship> { [Rel(0, A, B), Rel(1, B, C), Rel(2, C, D)] }

  function Fixture(): Graph {
    Graph(Chain0())
  }

  lemma FixtureWellFormed()
    ensures WellFormed(Fixture())
  {
    assert NumberedFrom(Chain0(), 0);
    NumberedWellFormed(Fixture());
  }

  /** The steps `n -r- m` that `AllTypesAndDirections()` allows in the fixture. */
  predicate AnyStep(n: NodeId, r: Relationship, m: NodeId) {
    || (n == A && ((r == Rel(0, A, B) && m == B)))
    || (n == B && ((r == Rel(0, A, B) && m == A) || (r == Rel(1, B, C) && m == C)))
    || (n == C && ((r == Rel(1, B, C) && m == B) || (r == Rel(2, C, D) && m == D)))
    || (n == D && ((r == Rel(2, C, D) && m == C)))
  }

  lemma AnyStepChain0(r: Relationship, n: NodeId, m: NodeId)
    requires r in Chain0() && Follow(AllTypesAndDirections(), r, n) == Some(m)
    ensures AnyStep(n, r, m)
  {
    var i :| 0 <= i < |Chain0()| && Chain0()[i] == r;
    assert i in {0, 1, 2};
  }

  /** Every step the expander allows in the fixture is one of the listed ones. */
  lemma AnyStepComplete(r: Relationship, n: NodeId, m: NodeId)
    requires r in Fixture().rels && Follow(AllTypesAndDirections(), r, n) == Some(m)
    ensures AnyStep(n, r, m)
  {
    if r in Chain0() { AnyStepChain0(r, n, m); }
  }

  /** `a,b,c,d` */
  function Route(): Path {
    Path([A, B, C, D], [Rel(0, A, B), Rel(1, B, C), Rel(2, C, D)])
  }

  lemma RouteIsPath()
    ensures IsSimplePathOfLength(Fixture(), AllTypesAndDirections(), A, D, 3, Route())
  {
    var g, x, p := Fixture(), AllTypesAndDirections(), Route();
    assert p.rels[0] == Chain0()[0];
    assert p.rels[1] == Chain0()[1];
    assert p.rels[2] == Chain0()[2];
    forall i | 0 <= i < |p.rels| ensures StepOk(g, x, p, i) {
    }
  }

  lemma OnlyRoute(q: Path)
    requires IsSimplePathOfLength(Fixture(), AllTypesAndDirections(), A, D, 3, q)
    ensures q == Route()
  {
    var g, x := Fixture(), AllTypesAndDirections();
    assert StepOk(g, x, q, 0) && StepOk(g, x, q, 1) && StepOk(g, x, q, 2);
    var n, r := q.nodes, q.rels;
    AnyStepComplete(r[0], n[0], n[1]);
    AnyStepComplete(r[1], n[1], n[2]);
    AnyStepComplete(r[2], n[2], n[3]);
    assert n == [n[0], n[1], n[2], n[3]];
    assert r == [r[0], r[1], r[2]];
  }

  /** Depth 3 in all directions from a to d: only `a,b,c,d`. */
  lemma Depth3()
    ensures multiset(FindAllPaths(Fixture(), AllTypesAndDirections(), 3, A, D)) == multiset{Route()}
  {
    FixtureWellFormed();
    RouteIsPath();
    forall q | IsSimplePathOfLength(Fixture(), AllTypesAndDirections(), A, D, 3, q)
      ensures q in [Route()]
    {
      OnlyRoute(q);
    }
    FindAllPathsExactly(Fixture(), AllTypesAndDirections(), 3, A, D, [Route()]);
  }
}

