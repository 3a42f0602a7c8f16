/**
 Three relationship-disjoint routes from a to g of lengths 3, 4 and 5, all
 relationships pointing from a towards g:
   (a)-(b)-(c)-(g),  (a)-(d)-(e)-(f)-(g),  (a)-(h)-(i)-(j)-(k)-(g).
 Searched forwards only and in all directions.
 */
module ThreeRoutesScenario {
  import opened Wrappers
  import opened PathFinding
  import opened TestGraphs

  const A: NodeId := 0
  const B: NodeId := 1
  const C: NodeId := 2
  const G: NodeId := 3
  const D: NodeId := 4
  const E: NodeId := 5
  const F: NodeId := 6
  const H: NodeId := 7
  const I: NodeId := 8
  const J: NodeId := 9
  const K: NodeId := 10

  /** `a,b,c,g` */
  function Chain0(): seq<Relationship> { [Rel(0, A, B), Rel(1, B, C), Rel(2, C, G)] }

  /** `a,d,e,f,g` */
  function Chain1(): seq<Relationship> { [Rel(3, A, D), Rel(4, D, E), Rel(5, E, F), Rel(6, F, G)] }

  /** `a,h,i,j,k,g` */
  function Chain2(): seq<Relationship> { [Rel(7, A, H), Rel(8, H, I), Rel(9, I, J), Rel(10, J, K), Rel(11, K, G)] }

  function Fixture(): Graph {
    Graph(Chain0() + Chain1() + Chain2())
  }

  lemma FixtureWellFormed()
    ensures WellFormed(Fixture())
  {
    assert NumberedFrom(Chain0(), 0);
    assert NumberedFrom(Chain1(), 3);
    NumberedConcat(Chain0(), Chain1(), 0);
    assert NumberedFrom(Chain2(), 7);
    NumberedConcat(Chain0() + Chain1(), Chain2(), 0);
    NumberedWellFormed(Fixture());
  }

  /** The steps `n -r- m` that `ForDirection(Outgoing)` allows in the fixture. */
  predicate OutStep(n: NodeId, r: Relationship, m: NodeId) {
    || (n == A && ((r == Rel(0, A, B) && m == B) || (r == Rel(3, A, D) && m == D) || (r == Rel(7, A, H) && m == H)))
    || (n == B && ((r == Rel(1, B, C) && m == C)))
    || (n == C && ((r == Rel(2, C, G) && m == G)))
    || (n == D && ((r == Rel(4, D, E) && m == E)))
    || (n == E && ((r == Rel(5, E, F) && m == F)))
    || (n == F && ((r == Rel(6, F, G) && m == G)))
    || (n == H && ((r == Rel(8, H, I) && m == I)))
    || (n == I && ((r == Rel(9, I, J) && m == J)))
    || (n == J && ((r == Rel(10, J, K) && m == K)))
    || (n == K && ((r == Rel(11, K, G) && m == G)))
  }

  lemma OutStepChain0(r: Relationship, n: NodeId, m: NodeId)
    requires r in Chain0() && Follow(ForDirection(Outgoing), r, n) == Some(m)
    ensures OutStep(n, r, m)
  {
    var i :| 0 <= i < |Chain0()| && Chain0()[i] == r;
    assert i in {0, 1, 2};
  }

  lemma OutStepChain1(r: Relationship, n: NodeId, m: NodeId)
    requires r in Chain1() && Follow(ForDirection(Outgoing), r, n) == Some(m)
    ensures OutStep(n, r, m)
  {
    var i :| 0 <= i < |Chain1()| && Chain1()[i] == r;
    assert i in {0, 1, 2, 3};
  }

  lemma OutStepChain2(r: Relationship, n: NodeId, m: NodeId)
    requires r in Chain2() && Follow(ForDirection(Outgoing), r, n) == Some(m)
    ensures OutStep(n, r, m)
  {
    var i :| 0 <= i < |Chain2()| && Chain2()[i] == r;
    assert i in {0, 1, 2, 3, 4};
  }

  /** Every step the expander allows in the fixture is one of the listed ones. */
  lemma OutStepComplete(r: Relationship, n: NodeId, m: NodeId)
    requires r in Fixture().rels && Follow(ForDirection(Outgoing), r, n) == Some(m)
    ensures OutStep(n, r, m)
  {
    if r in Chain0() { OutStepChain0(r, n, m); }
    if r in Chain1() { OutStepChain1(r, n, m); }
    if r in Chain2() { OutStepChain2(r, n, m); }
  }

  /** The steps `n -r- m` that `AllTypesAndDirections()` allows in the fixture. */
  predicate AnyStep(n: NodeId, r: Relationship, m: NodeId) {
    || (n == A && ((r == Rel(0, A, B) && m == B) || (r == Rel(3, A, D) && m == D) || (r == Rel(7, A, H) && m == H)))
    || (n == B && ((r == Rel(0, A, B) && m == A) || (r == Rel(1, B, C) && m == C)))
    || (n == C && ((r == Rel(1, B, C) && m == B) || (r == Rel(2, C, G) && m == G)))
    || (n == G && ((r == Rel(2, C, G) && m == C) || (r == Rel(6, F, G) && m == F) || (r == Rel(11, K, G) && m == K)))
    || (n == D && ((r == Rel(3, A, D) && m == A) || (r == Rel(4, D, E) && m == E)))
    || (n == E && ((r == Rel(4, D, E) && m == D) || (r == Rel(5, E, F) && m == F)))
    || (n == F && ((r == Rel(5, E, F) && m == E) || (r == Rel(6, F, G) && m == G)))
    || (n == H && ((r == Rel(7, A, H) && m == A) || (r == Rel(8, H, I) && m == I)))
    || (n == I && ((r == Rel(8, H, I) && m == H) || (r == Rel(9, I, J) && m == J)))
    || (n == J && ((r == Rel(9, I, J) && m == I) || (r == Rel(10, J, K) && m == K)))
    || (n == K && ((r == Rel(10, J, K) && m == J) || (r == Rel(11, K, G) && m == G)))
  }

  lemma AnyStepChain0(r: Relationship, n: NodeId, m: NodeId)
    requires r in Chain0() && Follow(AllTypesAndDirections(), r, n) == Some(m)
    ensures AnyStep(n, r, m)
  {
    var i :| 0 <= i < |Chain0()| && Chain0()[i] == r;
    assert i in {0, 1, 2};
  }

  lemma AnyStepChain1(r: Relationship, n: NodeId, m: NodeId)
    requires r in Chain1() && Follow(AllTypesAndDirections(), r, n) == Some(m)
    ensures AnyStep(n, r, m)
  {
    var i :| 0 <= i < |Chain1()| && Chain1()[i] == r;
    assert i in {0, 1, 2, 3};
  }

  lemma AnyStepChain2(r: Relationship, n: NodeId, m: NodeId)
    requires r in Chain2() && Follow(AllTypesAndDirections(), r, n) == Some(m)
    ensures AnyStep(n, r, m)
  {
    var i :| 0 <= i < |Chain2()| && Chain2()[i] == r;
    assert i in {0, 1, 2, 3, 4};
  }

  /** Every step the expander allows in the fixture is one of the listed ones. */
  lemma AnyStepComplete(r: Relationship, n: NodeId, m: NodeId)
    requires r in Fixture().rels && Follow(AllTypesAndDirections(), r, n) == Some(m)
    ensures AnyStep(n, r, m)
  {
    if r in Chain0() { AnyStepChain0(r, n, m); }
    if r in Chain1() { AnyStepChain1(r, n, m); }
    if r in Chain2() { AnyStepChain2(r, n, m); }
  }

  /** `a,b,c,g` */
  function ShortRoute(): Path {
    Path([A, B, C, G], [Rel(0, A, B), Rel(1, B, C), Rel(2, C, G)])
  }

  /** `a,d,e,f,g` */
  function MiddleRoute(): Path {
    Path([A, D, E, F, G], [Rel(3, A, D), Rel(4, D, E), Rel(5, E, F), Rel(6, F, G)])
  }

  /** `a,h,i,j,k,g` */
  function LongRoute(): Path {
    Path([A, H, I, J, K, G], [Rel(7, A, H), Rel(8, H, I), Rel(9, I, J), Rel(10, J, K), Rel(11, K, G)])
  }

  lemma ShortRouteOutgoingIsPath()
    ensures IsSimplePathOfLength(Fixture(), ForDirection(Outgoing), A, G, 3, ShortRoute())
  {
    var g, x, p := Fixture(), ForDirection(Outgoing), ShortRoute();
    assert p.rels[0] == Chain0()[0];
    assert p.rels[1] == Chain0()[1];
    assert p.rels[2] == Chain0()[2];
    forall i | 0 <= i < |p.rels| ensures StepOk(g, x, p, i) {
    }
  }

  lemma MiddleRouteOutgoingIsPath()
    ensures IsSimplePathOfLength(Fixture(), ForDirection(Outgoing), A, G, 4, MiddleRoute())
  {
    var g, x, p := Fixture(), ForDirection(Outgoing), MiddleRoute();
    assert p.rels[0] == Chain1()[0];
    assert p.rels[1] == Chain1()[1];
    assert p.rels[2] == Chain1()[2];
    assert p.rels[3] == Chain1()[3];
    forall i | 0 <= i < |p.rels| ensures StepOk(g, x, p, i) {
    }
  }

  lemma LongRouteOutgoingIsPath()
    ensures IsSimplePathOfLength(Fixture(), ForDirection(Outgoing), A, G, 5, LongRoute())
  {
    var g, x, p := Fixture(), ForDirection(Outgoing), LongRoute();
    assert p.rels[0] == Chain2()[0];
    assert p.rels[1] == Chain2()[1];
    assert p.rels[2] == Chain2()[2];
    assert p.rels[3] == Chain2()[3];
    assert p.rels[4] == Chain2()[4];
    forall i | 0 <= i < |p.rels| ensures StepOk(g, x, p, i) {
    }
  }

  lemma ShortRouteAnyIsPath()
    ensures IsSimplePathOfLength(Fixture(), AllTypesAndDirections(), A, G, 3, ShortRoute())
  {
    var g, x, p := Fixture(), AllTypesAndDirections(), ShortRoute();
    assert p.rels[0] == Chain0()[0];
    assert p.rels[1] == Chain0()[1];
    assert p.rels[2] == Chain0()[2];
    forall i | 0 <= i < |p.rels| ensures StepOk(g, x, p, i) {
    }
  }

  lemma MiddleRouteAnyIsPath()
    ensures IsSimplePathOfLength(Fixture(), AllTypesAndDirections(), A, G, 4, MiddleRoute())
  {
    var g, x, p := Fixture(), AllTypesAndDirections(), MiddleRoute();
    assert p.rels[0] == Chain1()[0];
    assert p.rels[1] == Chain1()[1];
    assert p.rels[2] == Chain1()[2];
    assert p.rels[3] == Chain1()[3];
    forall i | 0 <= i < |p.rels| ensures StepOk(g, x, p, i) {
    }
  }

  lemma LongRouteAnyIsPath()
    ensures IsSimplePathOfLength(Fixture(), AllTypesAndDirections(), A, G, 5, LongRoute())
  {
    var g, x, p := Fixture(), AllTypesAndDirections(), LongRoute();
    assert p.rels[0] == Chain2()[0];
    assert p.rels[1] == Chain2()[1];
    assert p.rels[2] == Chain2()[2];
    assert p.rels[3] == Chain2()[3];
    assert p.rels[4] == Chain2()[4];
    forall i | 0 <= i < |p.rels| ensures StepOk(g, x, p, i) {
    }
  }

  lemma OnlyShortRouteOutgoing(q: Path)
    requires IsSimplePathOfLength(Fixture(), ForDirection(Outgoing), A, G, 3, q)
    ensures q == ShortRoute()
  {
    var g, x := Fixture(), ForDirection(Outgoing);
    assert StepOk(g, x, q, 0) && StepOk(g, x, q, 1) && StepOk(g, x, q, 2);
    var n, r := q.nodes, q.rels;
    OutStepComplete(r[0], n[0], n[1]);
    if n[1] == B {
      OutStepComplete(r[1], n[1], n[2]);
      assert n[2] == C;
      OutStepComplete(r[2], n[2], n[3]);
      assert n[3] == G;
      ElementsOf4(n);
      ElementsOf3(r);
    } else if n[1] == D {
      OutStepComplete(r[1], n[1], n[2]);
      assert n[2] == E;
      OutStepComplete(r[2], n[2], n[3]);
      assert false;
    } else {
      OutStepComplete(r[1], n[1], n[2]);
      assert n[2] == I;
      OutStepComplete(r[2], n[2], n[3]);
      assert false;
    }
  }

  /** Searched following relationships forwards only at depth 3, the only result from a to g is `a,b,c,g`. */
  lemma Depth3Outgoing()
    ensures multiset(FindAllPaths(Fixture(), ForDirection(Outgoing), 3, A, G)) == multiset{ShortRoute()}
  {
    FixtureWellFormed();
    ShortRouteOutgoingIsPath();
    forall q | IsSimplePathOfLength(Fixture(), ForDirection(Outgoing), A, G, 3, q)
      ensures q in [ShortRoute()]
    {
      OnlyShortRouteOutgoing(q);
    }
    FindAllPathsExactly(Fixture(), ForDirection(Outgoing), 3, A, G, [ShortRoute()]);
  }

  lemma OnlyMiddleRouteOutgoing(q: Path)
    requires IsSimplePathOfLength(Fixture(), ForDirection(Outgoing), A, G, 4, q)
    ensures q == MiddleRoute()
  {
    var g, x := Fixture(), ForDirection(Outgoing);
    assert StepOk(g, x, q, 0) && StepOk(g, x, q, 1) && StepOk(g, x, q, 2) && StepOk(g, x, q, 3);
    var n, r := q.nodes, q.rels;
    OutStepComplete(r[0], n[0], n[1]);
    if n[1] == B {
      OutStepComplete(r[1], n[1], n[2]);
      assert n[2] == C;
      OutStepComplete(r[2], n[2], n[3]);
      assert false;
    } else if n[1] == D {
      OutStepComplete(r[1], n[1], n[2]);
      assert n[2] == E;
      OutStepComplete(r[2], n[2], n[3]);
      assert n[3] == F;
      OutStepComplete(r[3], n[3], n[4]);
      assert n[4] == G;
      ElementsOf5(n);
      ElementsOf4(r);
    } else {
      OutStepComplete(r[1], n[1], n[2]);
      assert n[2] == I;
      OutStepComplete(r[2], n[2], n[3]);
      assert n[3] == J;
      OutStepComplete(r[3], n[3], n[4]);
      assert false;
    }
  }

  /** Searched following relationships forwards only at depth 4, the only result from a to g is `a,d,e,f,g`. */
  lemma Depth4Outgoing()
    ensures multiset(FindAllPaths(Fixture(), ForDirection(Outgoing), 4, A, G)) == multiset{MiddleRoute()}
  {
    FixtureWellFormed();
    MiddleRouteOutgoingIsPath();
    forall q | IsSimplePathOfLength(Fixture(), ForDirection(Outgoing), A, G, 4, q)
      ensures q in [MiddleRoute()]
    {
      OnlyMiddleRouteOutgoing(q);
    }
    FindAllPathsExactly(Fixture(), ForDirection(Outgoing), 4, A, G, [MiddleRoute()]);
  }

  lemma OnlyLongRouteOutgoing(q: Path)
    requires IsSimplePathOfLength(Fixture(), ForDirection(Outgoing), A, G, 5, q)
    ensures q == LongRoute()
  {
    var g, x := Fixture(), ForDirection(Outgoing);
    assert StepOk(g, x, q, 0) && StepOk(g, x, q, 1) && StepOk(g, x, q, 2) && StepOk(g, x, q, 3) && StepOk(g, x, q, 4);
    var n, r := q.nodes, q.rels;
    OutStepComplete(r[0], n[0], n[1]);
    if n[1] == B {
      OutStepComplete(r[1], n[1], n[2]);
      assert n[2] == C;
      OutStepComplete(r[2], n[2], n[3]);
      assert false;
    } else if n[1] == D {
      OutStepComplete(r[1], n[1], n[2]);
      assert n[2] == E;
      OutStepComplete(r[2], n[2], n[3]);
      assert n[3] == F;
      OutStepComplete(r[3], n[3], n[4]);
      assert false;
    } else {
      OutStepComplete(r[1], n[1], n[2]);
      assert n[2] == I;
      OutStepComplete(r[2], n[2], n[3]);
      assert n[3] == J;
      OutStepComplete(r[3], n[3], n[4]);
      assert n[4] == K;
      OutStepComplete(r[4], n[4], n[5]);
      assert n[5] == G;
      ElementsOf6(n);
      ElementsOf5(r);
    }
  }

  /** Searched following relationships forwards only at depth 5, the only result from a to g is `a,h,i,j,k,g`. */
  lemma Depth5Outgoing()
    ensures multiset(FindAllPaths(Fixture(), ForDirection(Outgoing), 5, A, G)) == multiset{LongRoute()}
  {
    FixtureWellFormed();
    LongRouteOutgoingIsPath();
    forall q | IsSimplePathOfLength(Fixture(), ForDirection(Outgoing), A, G, 5, q)
      ensures q in [LongRoute()]
    {
      OnlyLongRouteOutgoing(q);
    }
    FindAllPathsExactly(Fixture(), ForDirection(Outgoing), 5, A, G, [LongRoute()]);
  }

  lemma OnlyShortRouteAny(q: Path)
    requires IsSimplePathOfLength(Fixture(), AllTypesAndDirections(), A, G, 3, q)
    ensures q == ShortRoute()
  {
    var g, x := Fixture(), AllTypesAndDirections();
    assert StepOk(g, x, q, 0) && StepOk(g, x, q, 1) && StepOk(g, x, q, 2);
    var n, r := q.nodes, q.rels;
    AnyStepComplete(r[0], n[0], n[1]);
    if n[1] == B {
      AnyStepComplete(r[1], n[1], n[2]);
      assert n[2] == C;
      AnyStepComplete(r[2], n[2], n[3]);
      assert n[3] == G;
      ElementsOf4(n);
      ElementsOf3(r);
    } else if n[1] == D {
      AnyStepComplete(r[1], n[1], n[2]);
      assert n[2] == E;
      AnyStepComplete(r[2], n[2], n[3]);
      assert false;
    } else {
      AnyStepComplete(r[1], n[1], n[2]);
      assert n[2] == I;
      AnyStepComplete(r[2], n[2], n[3]);
      assert false;
    }
  }

  /** Searched in all directions at depth 3, the only result from a to g is `a,b,c,g`. */
  lemma Depth3Any()
    ensures multiset(FindAllPaths(Fixture(), AllTypesAndDirections(), 3, A, G)) == multiset{ShortRoute()}
  {
    FixtureWellFormed();
    ShortRouteAnyIsPath();
    forall q | IsSimplePathOfLength(Fixture(), AllTypesAndDirections(), A, G, 3, q)
      ensures q in [ShortRoute()]
    {
      OnlyShortRouteAny(q);
    }
    FindAllPathsExactly(Fixture(), AllTypesAndDirections(), 3, A, G, [ShortRoute()]);
  }

  lemma OnlyMiddleRouteAny(q: Path)
    requires IsSimplePathOfLength(Fixture(), AllTypesAndDirections(), A, G, 4, q)
    ensures q == MiddleRoute()
  {
    var g, x := Fixture(), AllTypesAndDirections();
    assert StepOk(g, x, q, 0) && StepOk(g, x, q, 1) && StepOk(g, x, q, 2) && StepOk(g, x, q, 3);
    var n, r := q.nodes, q.rels;
    AnyStepComplete(r[0], n[0], n[1]);
    if n[1] == B {
      AnyStepComplete(r[1], n[1], n[2]);
      assert n[2] == C;
      AnyStepComplete(r[2], n[2], n[3]);
      assert false;
    } else if n[1] == D {
      AnyStepComplete(r[1], n[1], n[2]);
      assert n[2] == E;
      AnyStepComplete(r[2], n[2], n[3]);
      assert n[3] == F;
      AnyStepComplete(r[3], n[3], n[4]);
      assert n[4] == G;
      ElementsOf5(n);
      ElementsOf4(r);
    } else {
      AnyStepComplete(r[1], n[1], n[2]);
      assert n[2] == I;
      AnyStepComplete(r[2], n[2], n[3]);
      assert n[3] == J;
      AnyStepComplete(r[3], n[3], n[4]);
      assert false;
    }
  }

  /** Searched in all directions at depth 4, the only result from a to g is `a,d,e,f,g`. */
  lemma Depth4Any()
    ensures multiset(FindAllPaths(Fixture(), AllTypesAndDirections(), 4, A, G)) == multiset{MiddleRoute()}
  {
    FixtureWellFormed();
    MiddleRouteAnyIsPath();
    forall q | IsSimplePathOfLength(Fixture(), AllTypesAndDirections(), A, G, 4, q)
      ensures q in [MiddleRoute()]
    {
      OnlyMiddleRouteAny(q);
    }
    FindAllPathsExactly(Fixture(), AllTypesAndDirections(), 4, A, G, [MiddleRoute()]);
  }

  lemma OnlyLongRouteAny(q: Path)
    requires IsSimplePathOfLength(Fixture(), AllTypesAndDirections(), A, G, 5, q)
    ensures q == LongRoute()
  {
    var g, x := Fixture(), AllTypesAndDirections();
    assert StepOk(g, x, q, 0) && StepOk(g, x, q, 1) && StepOk(g, x, q, 2) && StepOk(g, x, q, 3) && StepOk(g, x, q, 4);
    var n, r := q.nodes, q.rels;
    AnyStepComplete(r[0], n[0], n[1]);
    if n[1] == B {
      AnyStepComplete(r[1], n[1], n[2]);
      assert n[2] == C;
      AnyStepComplete(r[2], n[2], n[3]);
      assert false;
    } else if n[1] == D {
      AnyStepComplete(r[1], n[1], n[2]);
      assert n[2] == E;
      AnyStepComplete(r[2], n[2], n[3]);
      assert n[3] == F;
      AnyStepComplete(r[3], n[3], n[4]);
      assert false;
    } else {
      AnyStepComplete(r[1], n[1], n[2]);
      assert n[2] == I;
      AnyStepComplete(r[2], n[2], n[3]);
      assert n[3] == J;
      AnyStepComplete(r[3], n[3], n[4]);
      assert n[4] == K;
      AnyStepComplete(r[4], n[4], n[5]);
      assert n[5] == G;
      ElementsOf6(n);
      ElementsOf5(r);
    }
  }

  /** Searched in all directions at depth 5, the only result from a to g is `a,h,i,j,k,g`. */
  lemma Depth5Any()
    ensures multiset(FindAllPaths(Fixture(), AllTypesAndDirections(), 5, A, G)) == multiset{LongRoute()}
  {
    FixtureWellFormed();
    LongRouteAnyIsPath();
    forall q | IsSimplePathOfLength(Fixture(), AllTypesAndDirections(), A, G, 5, q)
      ensures q in [LongRoute()]
    {
      OnlyLongRouteAny(q);
    }
    FindAllPathsExactly(Fixture(), AllTypesAndDirections(), 5, A, G, [LongRoute()]);
  }
}

