/**
 The layout of the exact-depth finder test, every relationship of type R1 and
 pointing along its chain:
   (a)-(c)-(g)-(k),  (a)-(b)-(d)-(j)-(k),  (b)-(e)-(f)-(h)-(i)-(j),  (d)-(h).
 Searched along outgoing R1 relationships from a to k at depths 3 to 8.
 */
module LayoutScenario {
  import opened Wrappers
  import opened PathFinding
  import opened TestGraphs

  const A: NodeId := 0
  const C: NodeId := 1
  const G: NodeId := 2
  const K: NodeId := 3
  const B: NodeId := 4
  const D: NodeId := 5
  const J: NodeId := 6
  const E: NodeId := 7
  const F: NodeId := 8
  const H: NodeId := 9
  const I: NodeId := 10

  /** `a,c,g,k` */
  function Chain0(): seq<Relationship> { [Rel(0, A, C), Rel(1, C, G), Rel(2, G, K)] }

  /** `a,b,d,j,k` */
  function Chain1(): seq<Relationship> { [Rel(3, A, B), Rel(4, B, D), Rel(5, D, J), Rel(6, J, K)] }

  /** `b,e,f,h,i,j` */
  function Chain2(): seq<Relationship> { [Rel(7, B, E), Rel(8, E, F), Rel(9, F, H), Rel(10, H, I), Rel(11, I, J)] }

  /** `d,h` */
  function Chain3(): seq<Relationship> { [Rel(12, D, H)] }

  function Fixture(): Graph {
    Graph(Chain0() + Chain1() + Chain2() + Chain3())
  }

  lemma FixtureWellFormed()
    ensures WellFormed(Fixture())
  {
    assert NumberedFrom(Chain0(), 0);
    assert NumberedFrom(Chain1(), 3);
    NumberedConcat(Chain0(), Chain1(), 0);
    assert NumberedFrom(Chain2(), 7);
    NumberedConcat(Chain0() + Chain1(), Chain2(), 0);
    assert NumberedFrom(Chain3(), 12);
    NumberedConcat(Chain0() + Chain1() + Chain2(), Chain3(), 0);
    NumberedWellFormed(Fixture());
  }

  /** The steps `n -r- m` that `ForTypeAndDirection(R1, Outgoing)` allows in the fixture. */
  predicate OutStep(n: NodeId, r: Relationship, m: NodeId) {
    || (n == A && ((r == Rel(0, A, C) && m == C) || (r == Rel(3, A, B) && m == B)))
    || (n == C && ((r == Rel(1, C, G) && m == G)))
    || (n == G && ((r == Rel(2, G, K) && m == K)))
    || (n == B && ((r == Rel(4, B, D) && m == D) || (r == Rel(7, B, E) && m == E)))
    || (n == D && ((r == Rel(5, D, J) && m == J) || (r == Rel(12, D, H) && m == H)))
    || (n == J && ((r == Rel(6, J, K) && m == K)))
    || (n == E && ((r == Rel(8, E, F) && m == F)))
    || (n == F && ((r == Rel(9, F, H) && m == H)))
    || (n == H && ((r == Rel(10, H, I) && m == I)))
    || (n == I && ((r == Rel(11, I, J) && m == J)))
  }

  lemma OutStepChain0(r: Relationship, n: NodeId, m: NodeId)
    requires r in Chain0() && Follow(ForTypeAndDirection(R1, Outgoing), r, n) == Some(m)
    ensures OutStep(n, r, m)
  {
    var i :| 0 <= i < |Chain0()| && Chain0()[i] == r;
    assert i in {0, 1, 2};
  }

  lemma OutStepChain1(r: Relationship, n: NodeId, m: NodeId)
    requires r in Chain1() && Follow(ForTypeAndDirection(R1, Outgoing), r, n) == Some(m)
    ensures OutStep(n, r, m)
  {
    var i :| 0 <= i < |Chain1()| && Chain1()[i] == r;
    assert i in {0, 1, 2, 3};
  }

  lemma OutStepChain2(r: Relationship, n: NodeId, m: NodeId)
    requires r in Chain2() && Follow(ForTypeAndDirection(R1, Outgoing), r, n) == Some(m)
    ensures OutStep(n, r, m)
  {
    var i :| 0 <= i < |Chain2()| && Chain2()[i] == r;
    assert i in {0, 1, 2, 3, 4};
  }

  lemma OutStepChain3(r: Relationship, n: NodeId, m: NodeId)
    requires r in Chain3() && Follow(ForTypeAndDirection(R1, Outgoing), r, n) == Some(m)
    ensures OutStep(n, r, m)
  {
    var i :| 0 <= i < |Chain3()| && Chain3()[i] == r;
    assert i in {0};
  }

  /** Every step the expander allows in the fixture is one of the listed ones. */
  lemma OutStepComplete(r: Relationship, n: NodeId, m: NodeId)
    requires r in Fixture().rels && Follow(ForTypeAndDirection(R1, Outgoing), r, n) == Some(m)
    ensures OutStep(n, r, m)
  {
    if r in Chain0() { OutStepChain0(r, n, m); }
    if r in Chain1() { OutStepChain1(r, n, m); }
    if r in Chain2() { OutStepChain2(r, n, m); }
    if r in Chain3() { OutStepChain3(r, n, m); }
  }

  /** `a,c,g,k` */
  function Depth3Route(): Path {
    Path([A, C, G, K], [Rel(0, A, C), Rel(1, C, G), Rel(2, G, K)])
  }

  /** `a,b,d,j,k` */
  function Depth4Route(): Path {
    Path([A, B, D, J, K], [Rel(3, A, B), Rel(4, B, D), Rel(5, D, J), Rel(6, J, K)])
  }

  /** `a,b,d,h,i,j,k` */
  function Depth6Route(): Path {
    Path([A, B, D, H, I, J, K], [Rel(3, A, B), Rel(4, B, D), Rel(12, D, H), Rel(10, H, I), Rel(11, I, J), Rel(6, J, K)])
  }

  /** `a,b,e,f,h,i,j,k` */
  function Depth7Route(): Path {
    Path([A, B, E, F, H, I, J, K], [Rel(3, A, B), Rel(7, B, E), Rel(8, E, F), Rel(9, F, H), Rel(10, H, I), Rel(11, I, J), Rel(6, J, K)])
  }

  lemma Depth3RouteIsPath()
    ensures IsSimplePathOfLength(Fixture(), ForTypeAndDirection(R1, Outgoing), A, K, 3, Depth3Route())
  {
    var g, x, p := Fixture(), ForTypeAndDirection(R1, Outgoing), Depth3Route();
    assert p.rels[0] == Chain0()[0];
    assert p.rels[1] == Chain0()[1];
    assert p.rels[2] == Chain0()[2];
    forall i | 0 <= i < |p.rels| ensures StepOk(g, x, p, i) {
    }
  }

  lemma Depth4RouteIsPath()
    ensures IsSimplePathOfLength(Fixture(), ForTypeAndDirection(R1, Outgoing), A, K, 4, Depth4Route())
  {
    var g, x, p := Fixture(), ForTypeAndDirection(R1, Outgoing), Depth4Route();
    assert p.rels[0] == Chain1()[0];
    assert p.rels[1] == Chain1()[1];
    assert p.rels[2] == Chain1()[2];
    assert p.rels[3] == Chain1()[3];
    forall i | 0 <= i < |p.rels| ensures StepOk(g, x, p, i) {
    }
  }

  lemma Depth6RouteIsPath()
    ensures IsSimplePathOfLength(Fixture(), ForTypeAndDirection(R1, Outgoing), A, K, 6, Depth6Route())
  {
    var g, x, p := Fixture(), ForTypeAndDirection(R1, Outgoing), Depth6Route();
    assert p.rels[0] == Chain1()[0];
    assert p.rels[1] == Chain1()[1];
    assert p.rels[2] == Chain3()[0];
    assert p.rels[3] == Chain2()[3];
    assert p.rels[4] == Chain2()[4];
    assert p.rels[5] == Chain1()[3];
    forall i | 0 <= i < |p.rels| ensures StepOk(g, x, p, i) {
    }
  }

  lemma Depth7RouteIsPath()
    ensures IsSimplePathOfLength(Fixture(), ForTypeAndDirection(R1, Outgoing), A, K, 7, Depth7Route())
  {
    var g, x, p := Fixture(), ForTypeAndDirection(R1, Outgoing), Depth7Route();
    assert p.rels[0] == Chain1()[0];
    assert p.rels[1] == Chain2()[0];
    assert p.rels[2] == Chain2()[1];
    assert p.rels[3] == Chain2()[2];
    assert p.rels[4] == Chain2()[3];
    assert p.rels[5] == Chain2()[4];
    assert p.rels[6] == Chain1()[3];
    forall i | 0 <= i < |p.rels| ensures StepOk(g, x, p, i) {
    }
  }

  lemma OnlyDepth3Route(q: Path)
    requires IsSimplePathOfLength(Fixture(), ForTypeAndDirection(R1, Outgoing), A, K, 3, q)
    ensures q == Depth3Route()
  {
    var g, x := Fixture(), ForTypeAndDirection(R1, Outgoing);
    assert StepOk(g, x, q, 0) && StepOk(g, x, q, 1) && StepOk(g, x, q, 2);
    var n, r := q.nodes, q.rels;
    OutStepComplete(r[0], n[0], n[1]);
    if n[1] == C {
      OutStepComplete(r[1], n[1], n[2]);
      assert n[2] == G;
      OutStepComplete(r[2], n[2], n[3]);
      assert n[3] == K;
      ElementsOf4(n);
      ElementsOf3(r);
    } else {
      OutStepComplete(r[1], n[1], n[2]);
      if n[2] == D {
        OutStepComplete(r[2], n[2], n[3]);
        assert false;
      } else {
        OutStepComplete(r[2], n[2], n[3]);
        assert false;
      }
    }
  }

  /** Outgoing R1 relationships at depth 3 from a to k: only `a,c,g,k`. */
  lemma Depth3()
    ensures multiset(FindAllPaths(Fixture(), ForTypeAndDirection(R1, Outgoing), 3, A, K)) == multiset{Depth3Route()}
  {
    FixtureWellFormed();
    Depth3RouteIsPath();
    forall q | IsSimplePathOfLength(Fixture(), ForTypeAndDirection(R1, Outgoing), A, K, 3, q)
      ensures q in [Depth3Route()]
    {
      OnlyDepth3Route(q);
    }
    FindAllPathsExactly(Fixture(), ForTypeAndDirection(R1, Outgoing), 3, A, K, [Depth3Route()]);
  }

  lemma OnlyDepth4Route(q: Path)
    requires IsSimplePathOfLength(Fixture(), ForTypeAndDirection(R1, Outgoing), A, K, 4, q)
    ensures q == Depth4Route()
  {
    var g, x := Fixture(), ForTypeAndDirection(R1, Outgoing);
    assert StepOk(g, x, q, 0) && StepOk(g, x, q, 1) && StepOk(g, x, q, 2) && StepOk(g, x, q, 3);
    var n, r := q.nodes, q.rels;
    OutStepComplete(r[0], n[0], n[1]);
    if n[1] == C {
      OutStepComplete(r[1], n[1], n[2]);
      assert n[2] == G;
      OutStepComplete(r[2], n[2], n[3]);
      assert false;
    } else {
      OutStepComplete(r[1], n[1], n[2]);
      if n[2] == D {
        OutStepComplete(r[2], n[2], n[3]);
        if n[3] == J {
          OutStepComplete(r[3], n[3], n[4]);
          assert n[4] == K;
          ElementsOf5(n);
          ElementsOf4(r);
        } else {
          OutStepComplete(r[3], n[3], n[4]);
          assert false;
        }
      } else {
        OutStepComplete(r[2], n[2], n[3]);
        assert n[3] == F;
        OutStepComplete(r[3], n[3], n[4]);
        assert false;
      }
    }
  }

  /** Outgoing R1 relationships at depth 4 from a to k: only `a,b,d,j,k`. */
  lemma Depth4()
    ensures multiset(FindAllPaths(Fixture(), ForTypeAndDirection(R1, Outgoing), 4, A, K)) == multiset{Depth4Route()}
  {
    FixtureWellFormed();
    Depth4RouteIsPath();
    forall q | IsSimplePathOfLength(Fixture(), ForTypeAndDirection(R1, Outgoing), A, K, 4, q)
      ensures q in [Depth4Route()]
    {
      OnlyDepth4Route(q);
    }
    FindAllPathsExactly(Fixture(), ForTypeAndDirection(R1, Outgoing), 4, A, K, [Depth4Route()]);
  }

  lemma NoRouteOfLength5(q: Path)
    ensures !IsSimplePathOfLength(Fixture(), ForTypeAndDirection(R1, Outgoing), A, K, 5, q)
  {
    if IsSimplePathOfLength(Fixture(), ForTypeAndDirection(R1, Outgoing), A, K, 5, q) {
      var g, x := Fixture(), ForTypeAndDirection(R1, Outgoing);
      assert StepOk(g, x, q, 0) && StepOk(g, x, q, 1) && StepOk(g, x, q, 2) && StepOk(g, x, q, 3) && StepOk(g, x, q, 4);
      var n, r := q.nodes, q.rels;
      OutStepComplete(r[0], n[0], n[1]);
      if n[1] == C {
        OutStepComplete(r[1], n[1], n[2]);
        assert n[2] == G;
        OutStepComplete(r[2], n[2], n[3]);
        assert false;
      } else {
        OutStepComplete(r[1], n[1], n[2]);
        if n[2] == D {
          OutStepComplete(r[2], n[2], n[3]);
          if n[3] == J {
            OutStepComplete(r[3], n[3], n[4]);
            assert false;
          } else {
            OutStepComplete(r[3], n[3], n[4]);
            assert n[4] == I;
            OutStepComplete(r[4], n[4], n[5]);
            assert false;
          }
        } else {
          OutStepComplete(r[2], n[2], n[3]);
          assert n[3] == F;
          OutStepComplete(r[3], n[3], n[4]);
          assert n[4] == H;
          OutStepComplete(r[4], n[4], n[5]);
          assert false;
        }
      }
    }
  }

  /** Outgoing R1 relationships at depth 5 from a to k: no path. */
  lemma Depth5()
    ensures FindAllPaths(Fixture(), ForTypeAndDirection(R1, Outgoing), 5, A, K) == []
  {
    var r := FindAllPaths(Fixture(), ForTypeAndDirection(R1, Outgoing), 5, A, K);
    if r != [] {
      NoRouteOfLength5(r[0]);
    }
  }

  lemma OnlyDepth6Route(q: Path)
    requires IsSimplePathOfLength(Fixture(), ForTypeAndDirection(R1, Outgoing), A, K, 6, q)
    ensures q == Depth6Route()
  {
    var g, x := Fixture(), ForTypeAndDirection(R1, Outgoing);
    assert StepOk(g, x, q, 0) && StepOk(g, x, q, 1) && StepOk(g, x, q, 2) && StepOk(g, x, q, 3) && StepOk(g, x, q, 4) && StepOk(g, x, q, 5);
    var n, r := q.nodes, q.rels;
    OutStepComplete(r[0], n[0], n[1]);
    if n[1] == C {
      OutStepComplete(r[1], n[1], n[2]);
      assert n[2] == G;
      OutStepComplete(r[2], n[2], n[3]);
      assert false;
    } else {
      OutStepComplete(r[1], n[1], n[2]);
      if n[2] == D {
        OutStepComplete(r[2], n[2], n[3]);
        if n[3] == J {
          OutStepComplete(r[3], n[3], n[4]);
          assert false;
        } else {
          OutStepComplete(r[3], n[3], n[4]);
          assert n[4] == I;
          OutStepComplete(r[4], n[4], n[5]);
          assert n[5] == J;
          OutStepComplete(r[5], n[5], n[6]);
          assert n[6] == K;
          ElementsOf7(n);
          ElementsOf6(r);
        }
      } else {
        OutStepComplete(r[2], n[2], n[3]);
        assert n[3] == F;
        OutStepComplete(r[3], n[3], n[4]);
        assert n[4] == H;
        OutStepComplete(r[4], n[4], n[5]);
        assert n[5] == I;
        OutStepComplete(r[5], n[5], n[6]);
        assert false;
      }
    }
  }

  /** Outgoing R1 relationships at depth 6 from a to k: only `a,b,d,h,i,j,k`. */
  lemma Depth6()
    ensures multiset(FindAllPaths(Fixture(), ForTypeAndDirection(R1, Outgoing), 6, A, K)) == multiset{Depth6Route()}
  {
    FixtureWellFormed();
    Depth6RouteIsPath();
    forall q | IsSimplePathOfLength(Fixture(), ForTypeAndDirection(R1, Outgoing), A, K, 6, q)
      ensures q in [Depth6Route()]
    {
      OnlyDepth6Route(q);
    }
    FindAllPathsExactly(Fixture(), ForTypeAndDirection(R1, Outgoing), 6, A, K, [Depth6Route()]);
  }

  lemma OnlyDepth7Route(q: Path)
    requires IsSimplePathOfLength(Fixture(), ForTypeAndDirection(R1, Outgoing), A, K, 7, q)
    ensures q == Depth7Route()
  {
    var g, x := Fixture(), ForTypeAndDirection(R1, Outgoing);
    assert StepOk(g, x, q, 0) && StepOk(g, x, q, 1) && StepOk(g, x, q, 2) && StepOk(g, x, q, 3) && StepOk(g, x, q, 4) && StepOk(g, x, q, 5) && StepOk(g, x, q, 6);
    var n, r := q.nodes, q.rels;
    OutStepComplete(r[0], n[0], n[1]);
    if n[1] == C {
      OutStepComplete(r[1], n[1], n[2]);
      assert n[2] == G;
      OutStepComplete(r[2], n[2], n[3]);
      assert false;
    } else {
      OutStepComplete(r[1], n[1], n[2]);
      if n[2] == D {
        OutStepComplete(r[2], n[2], n[3]);
        if n[3] == J {
          OutStepComplete(r[3], n[3], n[4]);
          assert false;
        } else {
          OutStepComplete(r[3], n[3], n[4]);
          assert n[4] == I;
          OutStepComplete(r[4], n[4], n[5]);
          assert n[5] == J;
          OutStepComplete(r[5], n[5], n[6]);
          assert false;
        }
      } else {
        OutStepComplete(r[2], n[2], n[3]);
        assert n[3] == F;
        OutStepComplete(r[3], n[3], n[4]);
        assert n[4] == H;
        OutStepComplete(r[4], n[4], n[5]);
        assert n[5] == I;
        OutStepComplete(r[5], n[5], n[6]);
        assert n[6] == J;
        OutStepComplete(r[6], n[6], n[7]);
        assert n[7] == K;
        ElementsOf8(n);
        ElementsOf7(r);
      }
    }
  }

  /** Outgoing R1 relationships at depth 7 from a to k: only `a,b,e,f,h,i,j,k`. */
  lemma Depth7()
    ensures multiset(FindAllPaths(Fixture(), ForTypeAndDirection(R1, Outgoing), 7, A, K)) == multiset{Depth7Route()}
  {
    FixtureWellFormed();
    Depth7RouteIsPath();
    forall q | IsSimplePathOfLength(Fixture(), ForTypeAndDirection(R1, Outgoing), A, K, 7, q)
      ensures q in [Depth7Route()]
    {
      OnlyDepth7Route(q);
    }
    FindAllPathsExactly(Fixture(), ForTypeAndDirection(R1, Outgoing), 7, A, K, [Depth7Route()]);
  }

  lemma NoRouteOfLength8(q: Path)
    ensures !IsSimplePathOfLength(Fixture(), ForTypeAndDirection(R1, Outgoing), A, K, 8, q)
  {
    if IsSimplePathOfLength(Fixture(), ForTypeAndDirection(R1, Outgoing), A, K, 8, q) {
      var g, x := Fixture(), ForTypeAndDirection(R1, Outgoing);
      assert StepOk(g, x, q, 0) && StepOk(g, x, q, 1) && StepOk(g, x, q, 2) && StepOk(g, x, q, 3) && StepOk(g, x, q, 4) && StepOk(g, x, q, 5) && StepOk(g, x, q, 6) && StepOk(g, x, q, 7);
      var n, r := q.nodes, q.rels;
      OutStepComplete(r[0], n[0], n[1]);
      if n[1] == C {
        OutStepComplete(r[1], n[1], n[2]);
        assert n[2] == G;
        OutStepComplete(r[2], n[2], n[3]);
        assert false;
      } else {
        OutStepComplete(r[1], n[1], n[2]);
        if n[2] == D {
          OutStepComplete(r[2], n[2], n[3]);
          if n[3] == J {
            OutStepComplete(r[3], n[3], n[4]);
            assert false;
          } else {
            OutStepComplete(r[3], n[3], n[4]);
            assert n[4] == I;
            OutStepComplete(r[4], n[4], n[5]);
            assert n[5] == J;
            OutStepComplete(r[5], n[5], n[6]);
            assert false;
          }
        } else {
          OutStepComplete(r[2], n[2], n[3]);
          assert n[3] == F;
          OutStepComplete(r[3], n[3], n[4]);
          assert n[4] == H;
          OutStepComplete(r[4], n[4], n[5]);
          assert n[5] == I;
          OutStepComplete(r[5], n[5], n[6]);
          assert n[6] == J;
          OutStepComplete(r[6], n[6], n[7]);
          assert false;
        }
      }
    }
  }

  /** Outgoing R1 relationships at depth 8 from a to k: no path. */
  lemma Depth8()
    ensures FindAllPaths(Fixture(), ForTypeAndDirection(R1, Outgoing), 8, A, K) == []
  {
    var r := FindAllPaths(Fixture(), ForTypeAndDirection(R1, Outgoing), 8, A, K);
    if r != [] {
      NoRouteOfLength8(r[0]);
    }
  }
}

