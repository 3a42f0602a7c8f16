/**
 The hub fixture of the exact-depth path finder's tests: a source and a target
 joined through a hub `SUPER` and a hub `SPIDER`, by the short chains
 `SOURCE,a,b,TARGET` and `SOURCE,z,9,0,TARGET`, with many dead ends.
 Searched in all directions at depth 4, both as the tests' finder does it (loops
 allowed, `FindAllWalks`) and with loops disallowed (`FindAllPaths`): at this depth
 the two searches find the same two routes.
 */
module HubScenario {
  import opened Wrappers
  import opened PathFinding
  import opened TestGraphs

  const Source: NodeId := 0
  const Super: NodeId := 1
  const C: NodeId := 2
  const D: NodeId := 3
  const E: NodeId := 4
  const F: NodeId := 5
  const N5: NodeId := 6
  const N6: NodeId := 7
  const N7: NodeId := 8
  const N8: NodeId := 9
  const R: NodeId := 10
  const Spider: NodeId := 11
  const G: NodeId := 12
  const H: NodeId := 13
  const I: NodeId := 14
  const J: NodeId := 15
  const K: NodeId := 16
  const L: NodeId := 17
  const M: NodeId := 18
  const S: NodeId := 19
  const T: NodeId := 20
  const U: NodeId := 21
  const V: NodeId := 22
  const W: NodeId := 23
  const X: NodeId := 24
  const Y: NodeId := 25
  const N: NodeId := 26
  const O: NodeId := 27
  const P: NodeId := 28
  const Q: NodeId := 29
  const N1: NodeId := 30
  const N2: NodeId := 31
  const N3: NodeId := 32
  const N4: NodeId := 33
  const Target: NodeId := 34
  const A: NodeId := 35
  const B: NodeId := 36
  const Z: NodeId := 37
  const N9: NodeId := 38
  const N0: NodeId := 39

  /** `SOURCE,SUPER,c,d` */
  function Chain0(): seq<Relationship> { [Rel(0, Source, Super), Rel(1, Super, C), Rel(2, C, D)] }

  /** `SUPER,e,f` */
  function Chain1(): seq<Relationship> { [Rel(3, Super, E), Rel(4, E, F)] }

  /** `SUPER,5,6` */
  function Chain2(): seq<Relationship> { [Rel(5, Super, N5), Rel(6, N5, N6)] }

  /** `SUPER,7,8` */
  function Chain3(): seq<Relationship> { [Rel(7, Super, N7), Rel(8, N7, N8)] }

  /** `SUPER,r,SPIDER` */
  function Chain4(): seq<Relationship> { [Rel(9, Super, R), Rel(10, R, Spider)] }

  /** `SUPER,g,h,i,j,SPIDER` */
  function Chain5(): seq<Relationship> { [Rel(11, Super, G), Rel(12, G, H), Rel(13, H, I), Rel(14, I, J), Rel(15, J, Spider)] }

  /** `SUPER,k,l,m,SPIDER` */
  function Chain6(): seq<Relationship> { [Rel(16, Super, K), Rel(17, K, L), Rel(18, L, M), Rel(19, M, Spider)] }

  /** `SUPER,s,t,u,SPIDER` */
  function Chain7(): seq<Relationship> { [Rel(20, Super, S), Rel(21, S, T), Rel(22, T, U), Rel(23, U, Spider)] }

  /** `SUPER,v,w,x,y,SPIDER` */
  function Chain8(): seq<Relationship> { [Rel(24, Super, V), Rel(25, V, W), Rel(26, W, X), Rel(27, X, Y), Rel(28, Y, Spider)] }

  /** `SPIDER,n,o` */
  function Chain9(): seq<Relationship> { [Rel(29, Spider, N), Rel(30, N, O)] }

  /** `SPIDER,p,q` */
  function Chain10(): seq<Relationship> { [Rel(31, Spider, P), Rel(32, P, Q)] }

  /** `SPIDER,1,2` */
  function Chain11(): seq<Relationship> { [Rel(33, Spider, N1), Rel(34, N1, N2)] }

  /** `SPIDER,3,4` */
  function Chain12(): seq<Relationship> { [Rel(35, Spider, N3), Rel(36, N3, N4)] }

  /** `SPIDER,TARGET` */
  function Chain13(): seq<Relationship> { [Rel(37, Spider, Target)] }

  /** `SOURCE,a,b,TARGET` */
  function Chain14(): seq<Relationship> { [Rel(38, Source, A), Rel(39, A, B), Rel(40, B, Target)] }

  /** `SOURCE,z,9,0,TARGET` */
  function Chain15(): seq<Relationship> { [Rel(41, Source, Z), Rel(42, Z, N9), Rel(43, N9, N0), Rel(44, N0, Target)] }

  function Fixture(): Graph {
    Graph(Chain0() + Chain1() + Chain2() + Chain3() + Chain4() + Chain5() + Chain6() + Chain7() + Chain8() + Chain9() + Chain10() + Chain11() + Chain12() + Chain13() + Chain14() + Chain15())
  }

  lemma FixtureWellFormed()
    ensures WellFormed(Fixture())
  {
    assert NumberedFrom(Chain0(), 0);
    assert NumberedFrom(Chain1(), 3);
    NumberedConcat(Chain0(), Chain1(), 0);
    assert NumberedFrom(Chain2(), 5);
    NumberedConcat(Chain0() + Chain1(), Chain2(), 0);
    assert NumberedFrom(Chain3(), 7);
    NumberedConcat(Chain0() + Chain1() + Chain2(), Chain3(), 0);
    assert NumberedFrom(Chain4(), 9);
    NumberedConcat(Chain0() + Chain1() + Chain2() + Chain3(), Chain4(), 0);
    assert NumberedFrom(Chain5(), 11);
    NumberedConcat(Chain0() + Chain1() + Chain2() + Chain3() + Chain4(), Chain5(), 0);
    assert NumberedFrom(Chain6(), 16);
    NumberedConcat(Chain0() + Chain1() + Chain2() + Chain3() + Chain4() + Chain5(), Chain6(), 0);
    assert NumberedFrom(Chain7(), 20);
    NumberedConcat(Chain0() + Chain1() + Chain2() + Chain3() + Chain4() + Chain5() + Chain6(), Chain7(), 0);
    assert NumberedFrom(Chain8(), 24);
    NumberedConcat(Chain0() + Chain1() + Chain2() + Chain3() + Chain4() + Chain5() + Chain6() + Chain7(), Chain8(), 0);
    assert NumberedFrom(Chain9(), 29);
    NumberedConcat(Chain0() + Chain1() + Chain2() + Chain3() + Chain4() + Chain5() + Chain6() + Chain7() + Chain8(), Chain9(), 0);
    assert NumberedFrom(Chain10(), 31);
    NumberedConcat(Chain0() + Chain1() + Chain2() + Chain3() + Chain4() + Chain5() + Chain6() + Chain7() + Chain8() + Chain9(), Chain10(), 0);
    assert NumberedFrom(Chain11(), 33);
    NumberedConcat(Chain0() + Chain1() + Chain2() + Chain3() + Chain4() + Chain5() + Chain6() + Chain7() + Chain8() + Chain9() + Chain10(), Chain11(), 0);
    assert NumberedFrom(Chain12(), 35);
    NumberedConcat(Chain0() + Chain1() + Chain2() + Chain3() + Chain4() + Chain5() + Chain6() + Chain7() + Chain8() + Chain9() + Chain10() + Chain11(), Chain12(), 0);
    assert NumberedFrom(Chain13(), 37);
    NumberedConcat(Chain0() + Chain1() + Chain2() + Chain3() + Chain4() + Chain5() + Chain6() + Chain7() + Chain8() + Chain9() + Chain10() + Chain11() + Chain12(), Chain13(), 0);
    assert NumberedFrom(Chain14(), 38);
    NumberedConcat(Chain0() + Chain1() + Chain2() + Chain3() + Chain4() + Chain5() + Chain6() + Chain7() + Chain8() + Chain9() + Chain10() + Chain11() + Chain12() + Chain13(), Chain14(), 0);
    assert NumberedFrom(Chain15(), 41);
    NumberedConcat(Chain0() + Chain1() + Chain2() + Chain3() + Chain4() + Chain5() + Chain6() + Chain7() + Chain8() + Chain9() + Chain10() + Chain11() + Chain12() + Chain13() + Chain14(), Chain15(), 0);
    NumberedWellFormed(Fixture());
  }

  /** The steps `n -r- m` that `AllTypesAndDirections()` allows in the fixture. */
  predicate AnyStep(n: NodeId, r: Relationship, m: NodeId) {
    || (n == Source && ((r == Rel(0, Source, Super) && m == Super) || (r == Rel(38, Source, A) && m == A) || (r == Rel(41, Source, Z) && m == Z)))
    || (n == Super && ((r == Rel(0, Source, Super) && m == Source) || (r == Rel(1, Super, C) && m == C) || (r == Rel(3, Super, E) && m == E) || (r == Rel(5, Super, N5) && m == N5) || (r == Rel(7, Super, N7) && m == N7) || (r == Rel(9, Super, R) && m == R) || (r == Rel(11, Super, G) && m == G) || (r == Rel(16, Super, K) && m == K) || (r == Rel(20, Super, S) && m == S) || (r == Rel(24, Super, V) && m == V)))
    || (n == C && ((r == Rel(1, Super, C) && m == Super) || (r == Rel(2, C, D) && m == D)))
    || (n == D && ((r == Rel(2, C, D) && m == C)))
    || (n == E && ((r == Rel(3, Super, E) && m == Super) || (r == Rel(4, E, F) && m == F)))
    || (n == F && ((r == Rel(4, E, F) && m == E)))
    || (n == N5 && ((r == Rel(5, Super, N5) && m == Super) || (r == Rel(6, N5, N6) && m == N6)))
    || (n == N6 && ((r == Rel(6, N5, N6) && m == N5)))
    || (n == N7 && ((r == Rel(7, Super, N7) && m == Super) || (r == Rel(8, N7, N8) && m == N8)))
    || (n == N8 && ((r == Rel(8, N7, N8) && m == N7)))
    || (n == R && ((r == Rel(9, Super, R) && m == Super) || (r == Rel(10, R, Spider) && m == Spider)))
    || (n == Spider && ((r == Rel(10, R, Spider) && m == R) || (r == Rel(15, J, Spider) && m == J) || (r == Rel(19, M, Spider) && m == M) || (r == Rel(23, U, Spider) && m == U) || (r == Rel(28, Y, Spider) && m == Y) || (r == Rel(29, Spider, N) && m == N) || (r == Rel(31, Spider, P) && m == P) || (r == Rel(33, Spider, N1) && m == N1) || (r == Rel(35, Spider, N3) && m == N3) || (r == Rel(37, Spider, Target) && m == Target)))
    || (n == G && ((r == Rel(11, Super, G) && m == Super) || (r == Rel(12, G, H) && m == H)))
    || (n == H && ((r == Rel(12, G, H) && m == G) || (r == Rel(13, H, I) && m == I)))
    || (n == I && ((r == Rel(13, H, I) && m == H) || (r == Rel(14, I, J) && m == J)))
    || (n == J && ((r == Rel(14, I, J) && m == I) || (r == Rel(15, J, Spider) && m == Spider)))
    || (n == K && ((r == Rel(16, Super, K) && m == Super) || (r == Rel(17, K, L) && m == L)))
    || (n == L && ((r == Rel(17, K, L) && m == K) || (r == Rel(18, L, M) && m == M)))
    || (n == M && ((r == Rel(18, L, M) && m == L) || (r == Rel(19, M, Spider) && m == Spider)))
    || (n == S && ((r == Rel(20, Super, S) && m == Super) || (r == Rel(21, S, T) && m == T)))
    || (n == T && ((r == Rel(21, S, T) && m == S) || (r == Rel(22, T, U) && m == U)))
    || (n == U && ((r == Rel(22, T, U) && m == T) || (r == Rel(23, U, Spider) && m == Spider)))
    || (n == V && ((r == Rel(24, Super, V) && m == Super) || (r == Rel(25, V, W) && m == W)))
    || (n == W && ((r == Rel(25, V, W) && m == V) || (r == Rel(26, W, X) && m == X)))
    || (n == X && ((r == Rel(26, W, X) && m == W) || (r == Rel(27, X, Y) && m == Y)))
    || (n == Y && ((r == Rel(27, X, Y) && m == X) || (r == Rel(28, Y, Spider) && m == Spider)))
    || (n == N && ((r == Rel(29, Spider, N) && m == Spider) || (r == Rel(30, N, O) && m == O)))
    || (n == O && ((r == Rel(30, N, O) && m == N)))
    || (n == P && ((r == Rel(31, Spider, P) && m == Spider) || (r == Rel(32, P, Q) && m == Q)))
    || (n == Q && ((r == Rel(32, P, Q) && m == P)))
    || (n == N1 && ((r == Rel(33, Spider, N1) && m == Spider) || (r == Rel(34, N1, N2) && m == N2)))
    || (n == N2 && ((r == Rel(34, N1, N2) && m == N1)))
    || (n == N3 && ((r == Rel(35, Spider, N3) && m == Spider) || (r == Rel(36, N3, N4) && m == N4)))
    || (n == N4 && ((r == Rel(36, N3, N4) && m == N3)))
    || (n == Target && ((r == Rel(37, Spider, Target) && m == Spider) || (r == Rel(40, B, Target) && m == B) || (r == Rel(44, N0, Target) && m == N0)))
    || (n == A && ((r == Rel(38, Source, A) && m == Source) || (r == Rel(39, A, B) && m == B)))
    || (n == B && ((r == Rel(39, A, B) && m == A) || (r == Rel(40, B, Target) && m == Target)))
    || (n == Z && ((r == Rel(41, Source, Z) && m == Source) || (r == Rel(42, Z, N9) && m == N9)))
    || (n == N9 && ((r == Rel(42, Z, N9) && m == Z) || (r == Rel(43, N9, N0) && m == N0)))
    || (n == N0 && ((r == Rel(43, N9, N0) && m == N9) || (r == Rel(44, N0, Target) && m == Target)))
  }

  lemma AnyStepChain0(r: Relationship, n: NodeId, m: NodeId)
    requires r in Chain0() && Follow(AllTypesAndDirections(), r, n) == Some(m)
    ensures AnyStep(n, r, m)
  {
    var i :| 0 <= i < |Chain0()| && Chain0()[i] == r;
    assert i in {0, 1, 2};
  }

  lemma AnyStepChain1(r: Relationship, n: NodeId, m: NodeId)
    requires r in Chain1() && Follow(AllTypesAndDirections(), r, n) == Some(m)
    ensures AnyStep(n, r, m)
  {
    var i :| 0 <= i < |Chain1()| && Chain1()[i] == r;
    assert i in {0, 1};
  }

  lemma AnyStepChain2(r: Relationship, n: NodeId, m: NodeId)
    requires r in Chain2() && Follow(AllTypesAndDirections(), r, n) == Some(m)
    ensures AnyStep(n, r, m)
  {
    var i :| 0 <= i < |Chain2()| && Chain2()[i] == r;
    assert i in {0, 1};
  }

  lemma AnyStepChain3(r: Relationship, n: NodeId, m: NodeId)
    requires r in Chain3() && Follow(AllTypesAndDirections(), r, n) == Some(m)
    ensures AnyStep(n, r, m)
  {
    var i :| 0 <= i < |Chain3()| && Chain3()[i] == r;
    assert i in {0, 1};
  }

  lemma AnyStepChain4(r: Relationship, n: NodeId, m: NodeId)
    requires r in Chain4() && Follow(AllTypesAndDirections(), r, n) == Some(m)
    ensures AnyStep(n, r, m)
  {
    var i :| 0 <= i < |Chain4()| && Chain4()[i] == r;
    assert i in {0, 1};
  }

  lemma AnyStepChain5(r: Relationship, n: NodeId, m: NodeId)
    requires r in Chain5() && Follow(AllTypesAndDirections(), r, n) == Some(m)
    ensures AnyStep(n, r, m)
  {
    var i :| 0 <= i < |Chain5()| && Chain5()[i] == r;
    assert i in {0, 1, 2, 3, 4};
  }

  lemma AnyStepChain6(r: Relationship, n: NodeId, m: NodeId)
    requires r in Chain6() && Follow(AllTypesAndDirections(), r, n) == Some(m)
    ensures AnyStep(n, r, m)
  {
    var i :| 0 <= i < |Chain6()| && Chain6()[i] == r;
    assert i in {0, 1, 2, 3};
  }

  lemma AnyStepChain7(r: Relationship, n: NodeId, m: NodeId)
    requires r in Chain7() && Follow(AllTypesAndDirections(), r, n) == Some(m)
    ensures AnyStep(n, r, m)
  {
    var i :| 0 <= i < |Chain7()| && Chain7()[i] == r;
    assert i in {0, 1, 2, 3};
  }

  lemma AnyStepChain8(r: Relationship, n: NodeId, m: NodeId)
    requires r in Chain8() && Follow(AllTypesAndDirections(), r, n) == Some(m)
    ensures AnyStep(n, r, m)
  {
    var i :| 0 <= i < |Chain8()| && Chain8()[i] == r;
    assert i in {0, 1, 2, 3, 4};
  }

  lemma AnyStepChain9(r: Relationship, n: NodeId, m: NodeId)
    requires r in Chain9() && Follow(AllTypesAndDirections(), r, n) == Some(m)
    ensures AnyStep(n, r, m)
  {
    var i :| 0 <= i < |Chain9()| && Chain9()[i] == r;
    assert i in {0, 1};
  }

  lemma AnyStepChain10(r: Relationship, n: NodeId, m: NodeId)
    requires r in Chain10() && Follow(AllTypesAndDirections(), r, n) == Some(m)
    ensures AnyStep(n, r, m)
  {
    var i :| 0 <= i < |Chain10()| && Chain10()[i] == r;
    assert i in {0, 1};
  }

  lemma AnyStepChain11(r: Relationship, n: NodeId, m: NodeId)
    requires r in Chain11() && Follow(AllTypesAndDirections(), r, n) == Some(m)
    ensures AnyStep(n, r, m)
  {
    var i :| 0 <= i < |Chain11()| && Chain11()[i] == r;
    assert i in {0, 1};
  }

  lemma AnyStepChain12(r: Relationship, n: NodeId, m: NodeId)
    requires r in Chain12() && Follow(AllTypesAndDirections(), r, n) == Some(m)
    ensures AnyStep(n, r, m)
  {
    var i :| 0 <= i < |Chain12()| && Chain12()[i] == r;
    assert i in {0, 1};
  }

  lemma AnyStepChain13(r: Relationship, n: NodeId, m: NodeId)
    requires r in Chain13() && Follow(AllTypesAndDirections(), r, n) == Some(m)
    ensures AnyStep(n, r, m)
  {
    var i :| 0 <= i < |Chain13()| && Chain13()[i] == r;
    assert i in {0};
  }

  lemma AnyStepChain14(r: Relationship, n: NodeId, m: NodeId)
    requires r in Chain14() && Follow(AllTypesAndDirections(), r, n) == Some(m)
    ensures AnyStep(n, r, m)
  {
    var i :| 0 <= i < |Chain14()| && Chain14()[i] == r;
    assert i in {0, 1, 2};
  }

  lemma AnyStepChain15(r: Relationship, n: NodeId, m: NodeId)
    requires r in Chain15() && Follow(AllTypesAndDirections(), r, n) == Some(m)
    ensures AnyStep(n, r, m)
  {
    var i :| 0 <= i < |Chain15()| && Chain15()[i] == r;
    assert i in {0, 1, 2, 3};
  }

  /** Every step the expander allows in the fixture is one of the listed ones. */
  lemma AnyStepComplete(r: Relationship, n: NodeId, m: NodeId)
    requires r in Fixture().rels && Follow(AllTypesAndDirections(), r, n) == Some(m)
    ensures AnyStep(n, r, m)
  {
    if r in Chain0() { AnyStepChain0(r, n, m); }
    if r in Chain1() { AnyStepChain1(r, n, m); }
    if r in Chain2() { AnyStepChain2(r, n, m); }
    if r in Chain3() { AnyStepChain3(r, n, m); }
    if r in Chain4() { AnyStepChain4(r, n, m); }
    if r in Chain5() { AnyStepChain5(r, n, m); }
    if r in Chain6() { AnyStepChain6(r, n, m); }
    if r in Chain7() { AnyStepChain7(r, n, m); }
    if r in Chain8() { AnyStepChain8(r, n, m); }
    if r in Chain9() { AnyStepChain9(r, n, m); }
    if r in Chain10() { AnyStepChain10(r, n, m); }
    if r in Chain11() { AnyStepChain11(r, n, m); }
    if r in Chain12() { AnyStepChain12(r, n, m); }
    if r in Chain13() { AnyStepChain13(r, n, m); }
    if r in Chain14() { AnyStepChain14(r, n, m); }
    if r in Chain15() { AnyStepChain15(r, n, m); }
  }

  /** `SOURCE,z,9,0,TARGET` */
  function ViaZ(): Path {
    Path([Source, Z, N9, N0, Target], [Rel(41, Source, Z), Rel(42, Z, N9), Rel(43, N9, N0), Rel(44, N0, Target)])
  }

  /** `SOURCE,SUPER,r,SPIDER,TARGET` */
  function ViaHubs(): Path {
    Path([Source, Super, R, Spider, Target], [Rel(0, Source, Super), Rel(9, Super, R), Rel(10, R, Spider), Rel(37, Spider, Target)])
  }

  lemma ViaZIsPath()
    ensures IsSimplePathOfLength(Fixture(), AllTypesAndDirections(), Source, Target, 4, ViaZ())
  {
    var g, x, p := Fixture(), AllTypesAndDirections(), ViaZ();
    assert p.rels[0] == Chain15()[0];
    assert p.rels[1] == Chain15()[1];
    assert p.rels[2] == Chain15()[2];
    assert p.rels[3] == Chain15()[3];
    forall i | 0 <= i < |p.rels| ensures StepOk(g, x, p, i) {
    }
  }

  lemma ViaHubsIsPath()
    ensures IsSimplePathOfLength(Fixture(), AllTypesAndDirections(), Source, Target, 4, ViaHubs())
  {
    var g, x, p := Fixture(), AllTypesAndDirections(), ViaHubs();
    assert p.rels[0] == Chain0()[0];
    assert p.rels[1] == Chain4()[0];
    assert p.rels[2] == Chain4()[1];
    assert p.rels[3] == Chain13()[0];
    forall i | 0 <= i < |p.rels| ensures StepOk(g, x, p, i) {
    }
  }

  lemma OnlyTwoRoutes(q: Path)
    requires IsSimplePathOfLength(Fixture(), AllTypesAndDirections(), Source, Target, 4, q)
    ensures q == ViaZ() || q == ViaHubs()
  {
    var g, x := Fixture(), AllTypesAndDirections();
    assert StepOk(g, x, q, 0) && StepOk(g, x, q, 1) && StepOk(g, x, q, 2) && StepOk(g, x, q, 3);
    var n, r := q.nodes, q.rels;
    AnyStepComplete(r[0], n[0], n[1]);
    if n[1] == Super {
      AnyStepComplete(r[1], n[1], n[2]);
      if n[2] == C {
        AnyStepComplete(r[2], n[2], n[3]);
        assert n[3] == D;
        AnyStepComplete(r[3], n[3], n[4]);
        assert false;
      } else if n[2] == E {
        AnyStepComplete(r[2], n[2], n[3]);
        assert n[3] == F;
        AnyStepComplete(r[3], n[3], n[4]);
        assert false;
      } else if n[2] == N5 {
        AnyStepComplete(r[2], n[2], n[3]);
        assert n[3] == N6;
        AnyStepComplete(r[3], n[3], n[4]);
        assert false;
      } else if n[2] == N7 {
        AnyStepComplete(r[2], n[2], n[3]);
        assert n[3] == N8;
        AnyStepComplete(r[3], n[3], n[4]);
        assert false;
      } else if n[2] == R {
        AnyStepComplete(r[2], n[2], n[3]);
        assert n[3] == Spider;
        AnyStepComplete(r[3], n[3], n[4]);
        assert n[4] == Target;
        ElementsOf5(n);
        ElementsOf4(r);
      } else if n[2] == G {
        AnyStepComplete(r[2], n[2], n[3]);
        assert n[3] == H;
        AnyStepComplete(r[3], n[3], n[4]);
        assert false;
      } else if n[2] == K {
        AnyStepComplete(r[2], n[2], n[3]);
        assert n[3] == L;
        AnyStepComplete(r[3], n[3], n[4]);
        assert false;
      } else if n[2] == S {
        AnyStepComplete(r[2], n[2], n[3]);
        assert n[3] == T;
        AnyStepComplete(r[3], n[3], n[4]);
        assert false;
      } else {
        AnyStepComplete(r[2], n[2], n[3]);
        assert n[3] == W;
        AnyStepComplete(r[3], n[3], n[4]);
        assert false;
      }
    } else if n[1] == A {
      AnyStepComplete(r[1], n[1], n[2]);
      assert n[2] == B;
      AnyStepComplete(r[2], n[2], n[3]);
      assert false;
    } else {
      AnyStepComplete(r[1], n[1], n[2]);
      assert n[2] == N9;
      AnyStepComplete(r[2], n[2], n[3]);
      assert n[3] == N0;
      AnyStepComplete(r[3], n[3], n[4]);
      assert n[4] == Target;
      ElementsOf5(n);
      ElementsOf4(r);
    }
  }

  /** With revisits allowed the same two routes are still the only walks: depth 4 leaves no room for a detour. */
  lemma OnlyTwoWalks(q: Path)
    requires IsWalkOfLength(Fixture(), AllTypesAndDirections(), Source, Target, 4, q)
    ensures q == ViaZ() || q == ViaHubs()
  {
    var g, x := Fixture(), AllTypesAndDirections();
    assert StepOk(g, x, q, 0) && StepOk(g, x, q, 1) && StepOk(g, x, q, 2) && StepOk(g, x, q, 3);
    var n, r := q.nodes, q.rels;
    AnyStepComplete(r[0], n[0], n[1]);
    if n[1] == Super {
      AnyStepComplete(r[1], n[1], n[2]);
      if n[2] == Source {
        AnyStepComplete(r[2], n[2], n[3]);
        if n[3] == Super {
          AnyStepComplete(r[3], n[3], n[4]);
          assert false;
        } else if n[3] == A {
          AnyStepComplete(r[3], n[3], n[4]);
          assert false;
        } else {
          AnyStepComplete(r[3], n[3], n[4]);
          assert false;
        }
      } else if n[2] == C {
        AnyStepComplete(r[2], n[2], n[3]);
        if n[3] == Super {
          AnyStepComplete(r[3], n[3], n[4]);
          assert false;
        } else {
          AnyStepComplete(r[3], n[3], n[4]);
          assert false;
        }
      } else if n[2] == E {
        AnyStepComplete(r[2], n[2], n[3]);
        if n[3] == Super {
          AnyStepComplete(r[3], n[3], n[4]);
          assert false;
        } else {
          AnyStepComplete(r[3], n[3], n[4]);
          assert false;
        }
      } else if n[2] == N5 {
        AnyStepComplete(r[2], n[2], n[3]);
        if n[3] == Super {
          AnyStepComplete(r[3], n[3], n[4]);
          assert false;
        } else {
          AnyStepComplete(r[3], n[3], n[4]);
          assert false;
        }
      } else if n[2] == N7 {
        AnyStepComplete(r[2], n[2], n[3]);
        if n[3] == Super {
          AnyStepComplete(r[3], n[3], n[4]);
          assert false;
        } else {
          AnyStepComplete(r[3], n[3], n[4]);
          assert false;
        }
      } else if n[2] == R {
        AnyStepComplete(r[2], n[2], n[3]);
        if n[3] == Super {
          AnyStepComplete(r[3], n[3], n[4]);
          assert false;
        } else {
          AnyStepComplete(r[3], n[3], n[4]);
          assert n[4] == Target;
          ElementsOf5(n);
          ElementsOf4(r);
        }
      } else if n[2] == G {
        AnyStepComplete(r[2], n[2], n[3]);
        if n[3] == Super {
          AnyStepComplete(r[3], n[3], n[4]);
          assert false;
        } else {
          AnyStepComplete(r[3], n[3], n[4]);
          assert false;
        }
      } else if n[2] == K {
        AnyStepComplete(r[2], n[2], n[3]);
        if n[3] == Super {
          AnyStepComplete(r[3], n[3], n[4]);
          assert false;
        } else {
          AnyStepComplete(r[3], n[3], n[4]);
          assert false;
        }
      } else if n[2] == S {
        AnyStepComplete(r[2], n[2], n[3]);
        if n[3] == Super {
          AnyStepComplete(r[3], n[3], n[4]);
          assert false;
        } else {
          AnyStepComplete(r[3], n[3], n[4]);
          assert false;
        }
      } else {
        AnyStepComplete(r[2], n[2], n[3]);
        if n[3] == Super {
          AnyStepComplete(r[3], n[3], n[4]);
          assert false;
        } else {
          AnyStepComplete(r[3], n[3], n[4]);
          assert false;
        }
      }
    } else if n[1] == A {
      AnyStepComplete(r[1], n[1], n[2]);
      if n[2] == Source {
        AnyStepComplete(r[2], n[2], n[3]);
        if n[3] == Super {
          AnyStepComplete(r[3], n[3], n[4]);
          assert false;
        } else if n[3] == A {
          AnyStepComplete(r[3], n[3], n[4]);
          assert false;
        } else {
          AnyStepComplete(r[3], n[3], n[4]);
          assert false;
        }
      } else {
        AnyStepComplete(r[2], n[2], n[3]);
        if n[3] == A {
          AnyStepComplete(r[3], n[3], n[4]);
          assert false;
        } else {
          AnyStepComplete(r[3], n[3], n[4]);
          assert false;
        }
      }
    } else {
      AnyStepComplete(r[1], n[1], n[2]);
      if n[2] == Source {
        AnyStepComplete(r[2], n[2], n[3]);
        if n[3] == Super {
          AnyStepComplete(r[3], n[3], n[4]);
          assert false;
        } else if n[3] == A {
          AnyStepComplete(r[3], n[3], n[4]);
          assert false;
        } else {
          AnyStepComplete(r[3], n[3], n[4]);
          assert false;
        }
      } else {
        AnyStepComplete(r[2], n[2], n[3]);
        if n[3] == Z {
          AnyStepComplete(r[3], n[3], n[4]);
          assert false;
        } else {
          AnyStepComplete(r[3], n[3], n[4]);
          assert n[4] == Target;
          ElementsOf5(n);
          ElementsOf4(r);
        }
      }
    }
  }

  /**
   The tests' own finder allows loops: its walks of depth 4 from SOURCE to TARGET are
   exactly the two routes, each once.
   */
  lemma WalksAtDepthFour()
    ensures multiset(FindAllWalks(Fixture(), AllTypesAndDirections(), 4, Source, Target)) == multiset{ViaZ(), ViaHubs()}
  {
    FixtureWellFormed();
    ViaZIsPath();
    ViaHubsIsPath();
    forall q | IsWalkOfLength(Fixture(), AllTypesAndDirections(), Source, Target, 4, q)
      ensures q in [ViaZ(), ViaHubs()]
    {
      OnlyTwoWalks(q);
    }
    FindAllWalksExactly(Fixture(), AllTypesAndDirections(), 4, Source, Target, [ViaZ(), ViaHubs()]);
  }

  /** The tests' single search, loops allowed, returns the first walk found: one of the two routes. */
  lemma FirstWalkAtDepthFour()
    ensures var all := FindAllWalks(Fixture(), AllTypesAndDirections(), 4, Source, Target);
      all != [] && (all[0] == ViaZ() || all[0] == ViaHubs())
  {
    var all := FindAllWalks(Fixture(), AllTypesAndDirections(), 4, Source, Target);
    WalksAtDepthFour();
    assert ViaZ() in multiset(all);
    assert all[0] in multiset(all);
  }

  /** Depth 4 from SOURCE to TARGET: exactly the two routes, each once. */
  lemma FindAllAtDepthFour()
    ensures multiset(FindAllPaths(Fixture(), AllTypesAndDirections(), 4, Source, Target)) == multiset{ViaZ(), ViaHubs()}
  {
    FixtureWellFormed();
    ViaZIsPath();
    ViaHubsIsPath();
    forall q | IsSimplePathOfLength(Fixture(), AllTypesAndDirections(), Source, Target, 4, q)
      ensures q in [ViaZ(), ViaHubs()]
    {
      OnlyTwoRoutes(q);
    }
    FindAllPathsExactly(Fixture(), AllTypesAndDirections(), 4, Source, Target, [ViaZ(), ViaHubs()]);
  }

  /** Depth 4 from SOURCE to TARGET: a single search finds one of the two routes. */
  lemma FindSingleAtDepthFour()
    ensures var r := FindSinglePath(Fixture(), AllTypesAndDirections(), 4, Source, Target);
            r.Some? && (r.value == ViaZ() || r.value == ViaHubs())
  {
    ViaZIsPath();
    var r := FindSinglePath(Fixture(), AllTypesAndDirections(), 4, Source, Target);
    OnlyTwoRoutes(r.value);
  }
}
