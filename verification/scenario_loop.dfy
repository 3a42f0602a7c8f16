/**
 The chain `a,b,c,d,b,c,e` of R1 relationships, each pointing along the chain, so
 that b and c are joined by two parallel relationships and c, d, b form a cycle:
   (a)->(b)=>(c)->(e),  (c)->(d)->(b).
 Searched in both directions with loops disallowed, and forwards with loops allowed.
 */
module LoopScenario {
  import opened Wrappers
  import opened PathFinding
  import opened TestGraphs

  const A: NodeId := 0
  const B: NodeId := 1
  const C: NodeId := 2
  const D: NodeId := 3
  const E: NodeId := 4

  /** `a,b,c,d,b,c,e` */
  function Chain0(): seq<Relationship> { [Rel(0, A, B), Rel(1, B, C), Rel(2, C, D), Rel(3, D, B), Rel(4, B, C), Rel(5, C, E)] }

  function Fixture(): Graph {
    Graph(Chain0())
  }

  lemma FixtureWellFormed()
    ensures WellFormed(Fixture())
  {
    assert NumberedFrom(Chain0(), 0);
    NumberedWellFormed(Fixture());
  }

  /** The steps `n -r- m` that `ForType(R1)` allows in the fixture. */
  predicate AnyStep(n: NodeId, r: Relationship, m: NodeId) {
    || (n == A && ((r == Rel(0, A, B) && m == B)))
    || (n == B && ((r == Rel(0, A, B) && m == A) || (r == Rel(1, B, C) && m == C) || (r == Rel(3, D, B) && m == D) || (r == Rel(4, B, C) && m == C)))
    || (n == C && ((r == Rel(1, B, C) && m == B) || (r == Rel(2, C, D) && m == D) || (r == Rel(4, B, C) && m == B) || (r == Rel(5, C, E) && m == E)))
    || (n == D && ((r == Rel(2, C, D) && m == C) || (r == Rel(3, D, B) && m == B)))
    || (n == E && ((r == Rel(5, C, E) && m == C)))
  }

  lemma AnyStepChain0(r: Relationship, n: NodeId, m: NodeId)
    requires r in Chain0() && Follow(ForType(R1), r, n) == Some(m)
    ensures AnyStep(n, r, m)
  {
    var i :| 0 <= i < |Chain0()| && Chain0()[i] == r;
    assert i in {0, 1, 2, 3, 4, 5};
  }

  /** Every step the expander allows in the fixture is one of the listed ones. */
  lemma AnyStepComplete(r: Relationship, n: NodeId, m: NodeId)
    requires r in Fixture().rels && Follow(ForType(R1), r, n) == Some(m)
    ensures AnyStep(n, r, m)
  {
    if r in Chain0() { AnyStepChain0(r, n, m); }
  }

  /** The steps `n -r- m` that `ForDirection(Outgoing)` allows in the fixture. */
  predicate OutStep(n: NodeId, r: Relationship, m: NodeId) {
    || (n == A && ((r == Rel(0, A, B) && m == B)))
    || (n == B && ((r == Rel(1, B, C) && m == C) || (r == Rel(4, B, C) && m == C)))
    || (n == C && ((r == Rel(2, C, D) && m == D) || (r == Rel(5, C, E) && m == E)))
    || (n == D && ((r == Rel(3, D, B) && m == B)))
  }

  lemma OutStepChain0(r: Relationship, n: NodeId, m: NodeId)
    requires r in Chain0() && Follow(ForDirection(Outgoing), r, n) == Some(m)
    ensures OutStep(n, r, m)
  {
    var i :| 0 <= i < |Chain0()| && Chain0()[i] == r;
    assert i in {0, 1, 2, 3, 4, 5};
  }

  /** Every step the expander allows in the fixture is one of the listed ones. */
  lemma OutStepComplete(r: Relationship, n: NodeId, m: NodeId)
    requires r in Fixture().rels && Follow(ForDirection(Outgoing), r, n) == Some(m)
    ensures OutStep(n, r, m)
  {
    if r in Chain0() { OutStepChain0(r, n, m); }
  }

  /** `a,b,c,e` */
  function ShortRouteFirst(): Path {
    Path([A, B, C, E], [Rel(0, A, B), Rel(1, B, C), Rel(5, C, E)])
  }

  /** `a,b,c,e` */
  function ShortRouteSecond(): Path {
    Path([A, B, C, E], [Rel(0, A, B), Rel(4, B, C), Rel(5, C, E)])
  }

  /** `a,b,d,c,e` */
  function DetourRoute(): Path {
    Path([A, B, D, C, E], [Rel(0, A, B), Rel(3, D, B), Rel(2, C, D), Rel(5, C, E)])
  }

  /** `a,b,c,d,b,c,e` */
  function WalkFirstFirst(): Path {
    Path([A, B, C, D, B, C, E], [Rel(0, A, B), Rel(1, B, C), Rel(2, C, D), Rel(3, D, B), Rel(1, B, C), Rel(5, C, E)])
  }

  /** `a,b,c,d,b,c,e` */
  function WalkFirstSecond(): Path {
    Path([A, B, C, D, B, C, E], [Rel(0, A, B), Rel(1, B, C), Rel(2, C, D), Rel(3, D, B), Rel(4, B, C), Rel(5, C, E)])
  }

  /** `a,b,c,d,b,c,e` */
  function WalkSecondFirst(): Path {
    Path([A, B, C, D, B, C, E], [Rel(0, A, B), Rel(4, B, C), Rel(2, C, D), Rel(3, D, B), Rel(1, B, C), Rel(5, C, E)])
  }

  /** `a,b,c,d,b,c,e` */
  function WalkSecondSecond(): Path {
    Path([A, B, C, D, B, C, E], [Rel(0, A, B), Rel(4, B, C), Rel(2, C, D), Rel(3, D, B), Rel(4, B, C), Rel(5, C, E)])
  }

  lemma ShortRouteFirstIsPath()
    ensures IsSimplePathOfLength(Fixture(), ForType(R1), A, E, 3, ShortRouteFirst())
  {
    var g, x, p := Fixture(), ForType(R1), ShortRouteFirst();
    assert p.rels[0] == Chain0()[0];
    assert p.rels[1] == Chain0()[1];
    assert p.rels[2] == Chain0()[5];
    forall i | 0 <= i < |p.rels| ensures StepOk(g, x, p, i) {
    }
  }

  lemma ShortRouteSecondIsPath()
    ensures IsSimplePathOfLength(Fixture(), ForType(R1), A, E, 3, ShortRouteSecond())
  {
    var g, x, p := Fixture(), ForType(R1), ShortRouteSecond();
    assert p.rels[0] == Chain0()[0];
    assert p.rels[1] == Chain0()[4];
    assert p.rels[2] == Chain0()[5];
    forall i | 0 <= i < |p.rels| ensures StepOk(g, x, p, i) {
    }
  }

  lemma DetourRouteIsPath()
    ensures IsSimplePathOfLength(Fixture(), ForType(R1), A, E, 4, DetourRoute())
  {
    var g, x, p := Fixture(), ForType(R1), DetourRoute();
    assert p.rels[0] == Chain0()[0];
    assert p.rels[1] == Chain0()[3];
    assert p.rels[2] == Chain0()[2];
    assert p.rels[3] == Chain0()[5];
    forall i | 0 <= i < |p.rels| ensures StepOk(g, x, p, i) {
    }
  }

  lemma WalkFirstFirstIsPath()
    ensures IsWalkOfLength(Fixture(), ForDirection(Outgoing), A, E, 6, WalkFirstFirst())
  {
    var g, x, p := Fixture(), ForDirection(Outgoing), WalkFirstFirst();
    assert p.rels[0] == Chain0()[0];
    assert p.rels[1] == Chain0()[1];
    assert p.rels[2] == Chain0()[2];
    assert p.rels[3] == Chain0()[3];
    assert p.rels[4] == Chain0()[1];
    assert p.rels[5] == Chain0()[5];
    forall i | 0 <= i < |p.rels| ensures StepOk(g, x, p, i) {
    }
  }

  lemma WalkFirstSecondIsPath()
    ensures IsWalkOfLength(Fixture(), ForDirection(Outgoing), A, E, 6, WalkFirstSecond())
  {
    var g, x, p := Fixture(), ForDirection(Outgoing), WalkFirstSecond();
    assert p.rels[0] == Chain0()[0];
    assert p.rels[1] == Chain0()[1];
    assert p.rels[2] == Chain0()[2];
    assert p.rels[3] == Chain0()[3];
    assert p.rels[4] == Chain0()[4];
    assert p.rels[5] == Chain0()[5];
    forall i | 0 <= i < |p.rels| ensures StepOk(g, x, p, i) {
    }
  }

  lemma WalkSecondFirstIsPath()
    ensures IsWalkOfLength(Fixture(), ForDirection(Outgoing), A, E, 6, WalkSecondFirst())
  {
    var g, x, p := Fixture(), ForDirection(Outgoing), WalkSecondFirst();
    assert p.rels[0] == Chain0()[0];
    assert p.rels[1] == Chain0()[4];
    assert p.rels[2] == Chain0()[2];
    assert p.rels[3] == Chain0()[3];
    assert p.rels[4] == Chain0()[1];
    assert p.rels[5] == Chain0()[5];
    forall i | 0 <= i < |p.rels| ensures StepOk(g, x, p, i) {
    }
  }

  lemma WalkSecondSecondIsPath()
    ensures IsWalkOfLength(Fixture(), ForDirection(Outgoing), A, E, 6, WalkSecondSecond())
  {
    var g, x, p := Fixture(), ForDirection(Outgoing), WalkSecondSecond();
    assert p.rels[0] == Chain0()[0];
    assert p.rels[1] == Chain0()[4];
    assert p.rels[2] == Chain0()[2];
    assert p.rels[3] == Chain0()[3];
    assert p.rels[4] == Chain0()[4];
    assert p.rels[5] == Chain0()[5];
    forall i | 0 <= i < |p.rels| ensures StepOk(g, x, p, i) {
    }
  }

  lemma OnlyShortRoutes(q: Path)
    requires IsSimplePathOfLength(Fixture(), ForType(R1), A, E, 3, q)
    ensures q == ShortRouteFirst() || q == ShortRouteSecond()
  {
    var g, x := Fixture(), ForType(R1);
    assert StepOk(g, x, q, 0) && StepOk(g, x, q, 1) && StepOk(g, x, q, 2);
    var n, r := q.nodes, q.rels;
    AnyStepComplete(r[0], n[0], n[1]);
    assert n[1] == B;
    AnyStepComplete(r[1], n[1], n[2]);
    if n[2] == C {
      AnyStepComplete(r[2], n[2], n[3]);
      assert n[3] == E;
      ElementsOf4(n);
      ElementsOf3(r);
    } else {
      AnyStepComplete(r[2], n[2], n[3]);
      assert false;
    }
  }

  /** R1 relationships in both directions at depth 3 from a to e: `a,b,c,e` once per parallel b-c relationship. */
  lemma Depth3()
    ensures multiset(FindAllPaths(Fixture(), ForType(R1), 3, A, E)) == multiset{ShortRouteFirst(), ShortRouteSecond()}
  {
    FixtureWellFormed();
    ShortRouteFirstIsPath();
    ShortRouteSecondIsPath();
    forall q | IsSimplePathOfLength(Fixture(), ForType(R1), A, E, 3, q)
      ensures q in [ShortRouteFirst(), ShortRouteSecond()]
    {
      OnlyShortRoutes(q);
    }
    FindAllPathsExactly(Fixture(), ForType(R1), 3, A, E, [ShortRouteFirst(), ShortRouteSecond()]);
  }

  lemma OnlyDetourRoute(q: Path)
    requires IsSimplePathOfLength(Fixture(), ForType(R1), A, E, 4, q)
    ensures q == DetourRoute()
  {
    var g, x := Fixture(), ForType(R1);
    assert StepOk(g, x, q, 0) && StepOk(g, x, q, 1) && StepOk(g, x, q, 2) && StepOk(g, x, q, 3);
    var n, r := q.nodes, q.rels;
    AnyStepComplete(r[0], n[0], n[1]);
    assert n[1] == B;
    AnyStepComplete(r[1], n[1], n[2]);
    if n[2] == C {
      AnyStepComplete(r[2], n[2], n[3]);
      assert n[3] == D;
      AnyStepComplete(r[3], n[3], n[4]);
      assert false;
    } else {
      AnyStepComplete(r[2], n[2], n[3]);
      assert n[3] == C;
      AnyStepComplete(r[3], n[3], n[4]);
      assert n[4] == E;
      ElementsOf5(n);
      ElementsOf4(r);
    }
  }

  /** R1 relationships in both directions at depth 4 from a to e: only `a,b,d,c,e`, against the direction of d-b and c-d. */
  lemma Depth4()
    ensures multiset(FindAllPaths(Fixture(), ForType(R1), 4, A, E)) == multiset{DetourRoute()}
  {
    FixtureWellFormed();
    DetourRouteIsPath();
    forall q | IsSimplePathOfLength(Fixture(), ForType(R1), A, E, 4, q)
      ensures q in [DetourRoute()]
    {
      OnlyDetourRoute(q);
    }
    FindAllPathsExactly(Fixture(), ForType(R1), 4, A, E, [DetourRoute()]);
  }

  lemma NoSimpleRouteOfLength6(q: Path)
    ensures !IsSimplePathOfLength(Fixture(), ForType(R1), A, E, 6, q)
  {
    if IsSimplePathOfLength(Fixture(), ForType(R1), A, E, 6, q) {
      var g, x := Fixture(), ForType(R1);
      assert StepOk(g, x, q, 0) && StepOk(g, x, q, 1) && StepOk(g, x, q, 2) && StepOk(g, x, q, 3) && StepOk(g, x, q, 4) && StepOk(g, x, q, 5);
      var n, r := q.nodes, q.rels;
      AnyStepComplete(r[0], n[0], n[1]);
      assert n[1] == B;
      AnyStepComplete(r[1], n[1], n[2]);
      if n[2] == C {
        AnyStepComplete(r[2], n[2], n[3]);
        assert n[3] == D;
        AnyStepComplete(r[3], n[3], n[4]);
        assert false;
      } else {
        AnyStepComplete(r[2], n[2], n[3]);
        assert n[3] == C;
        AnyStepComplete(r[3], n[3], n[4]);
        assert false;
      }
    }
  }

  /** R1 relationships in both directions at depth 6 from a to e: the walk `a,b,c,d,b,c,e` revisits b and c, so no path. */
  lemma Depth6()
    ensures FindAllPaths(Fixture(), ForType(R1), 6, A, E) == []
  {
    var r := FindAllPaths(Fixture(), ForType(R1), 6, A, E);
    if r != [] {
      NoSimpleRouteOfLength6(r[0]);
    }
  }

  lemma OnlyLoopingWalks(q: Path)
    requires IsWalkOfLength(Fixture(), ForDirection(Outgoing), A, E, 6, q)
    ensures q == WalkFirstFirst() || q == WalkFirstSecond() || q == WalkSecondFirst() || q == WalkSecondSecond()
  {
    var g, x := Fixture(), ForDirection(Outgoing);
    assert StepOk(g, x, q, 0) && StepOk(g, x, q, 1) && StepOk(g, x, q, 2) && StepOk(g, x, q, 3) && StepOk(g, x, q, 4) && StepOk(g, x, q, 5);
    var n, r := q.nodes, q.rels;
    OutStepComplete(r[0], n[0], n[1]);
    assert n[1] == B;
    OutStepComplete(r[1], n[1], n[2]);
    assert n[2] == C;
    OutStepComplete(r[2], n[2], n[3]);
    if n[3] == D {
      OutStepComplete(r[3], n[3], n[4]);
      assert n[4] == B;
      OutStepComplete(r[4], n[4], n[5]);
      assert n[5] == C;
      OutStepComplete(r[5], n[5], n[6]);
      assert n[6] == E;
      ElementsOf7(n);
      ElementsOf6(r);
    } else {
      OutStepComplete(r[3], n[3], n[4]);
      assert false;
    }
  }

  /** Loops allowed, outgoing relationships at depth 6 from a to e: the walk `a,b,c,d,b,c,e`, once per choice of parallel b-c relationship on each pass. */
  lemma LoopsAllowedDepth6()
    ensures multiset(FindAllWalks(Fixture(), ForDirection(Outgoing), 6, A, E)) == multiset{WalkFirstFirst(), WalkFirstSecond(), WalkSecondFirst(), WalkSecondSecond()}
  {
    FixtureWellFormed();
    WalkFirstFirstIsPath();
    WalkFirstSecondIsPath();
    WalkSecondFirstIsPath();
    WalkSecondSecondIsPath();
    forall q | IsWalkOfLength(Fixture(), ForDirection(Outgoing), A, E, 6, q)
      ensures q in [WalkFirstFirst(), WalkFirstSecond(), WalkSecondFirst(), WalkSecondSecond()]
    {
      OnlyLoopingWalks(q);
    }
    FindAllWalksExactly(Fixture(), ForDirection(Outgoing), 6, A, E, [WalkFirstFirst(), WalkFirstSecond(), WalkSecondFirst(), WalkSecondSecond()]);
  }

  /** Every loops-allowed result at depth 6 reads `a,b,c,d,b,c,e`, and there is one. */
  lemma LoopsAllowedDepth6Reads()
    ensures FindAllWalks(Fixture(), ForDirection(Outgoing), 6, A, E) != []
    ensures forall q | q in FindAllWalks(Fixture(), ForDirection(Outgoing), 6, A, E) :: q.nodes == [A, B, C, D, B, C, E]
  {
    LoopsAllowedDepth6();
    var r := FindAllWalks(Fixture(), ForDirection(Outgoing), 6, A, E);
    assert WalkFirstFirst() in multiset(r);
    forall q | q in r
      ensures q.nodes == [A, B, C, D, B, C, E]
    {
      assert q in multiset(r);
    }
  }
}

