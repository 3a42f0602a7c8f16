/**
 Exact-depth path finding over a property graph.

 A graph is a finite multigraph given as the sequence of its directed, typed
 relationships. An expander chooses which relationships may be followed from a
 node (by direction and, optionally, by relationship type). `FindAllPaths`
 enumerates every path of exactly `depth` relationships from a source to a
 target that never visits a node twice; parallel relationships yield distinct
 results. The enumerator is proved sound, complete and free of duplicates
 against the declarative predicate `IsSimplePathOfLength`.
 */
module PathFinding {
  import opened Wrappers

  type NodeId = nat
  type RelTypeId = nat

  datatype Direction = Outgoing | Incoming | Both

  /** A relationship `from -[relType]-> to` with its own identity. */
  datatype Relationship = Relationship(id: nat, from: NodeId, to: NodeId, relType: RelTypeId)

  /** The relationships of a graph, in creation order. */
  datatype Graph = Graph(rels: seq<Relationship>)

  /** Relationship identities are unique within a graph. */
  predicate WellFormed(g: Graph) {
    forall i, j :: 0 <= i < j < |g.rels| ==> g.rels[i].id != g.rels[j].id
  }

  /** A traversal policy: the direction to follow and, optionally, the only type to follow. */
  datatype Expander = Expander(direction: Direction, relType: Option<RelTypeId>)

  function AllTypesAndDirections(): Expander { Expander(Both, None) }

  function ForDirection(d: Direction): Expander { Expander(d, None) }

  /** A type-only expander follows relationships of that type in both directions. */
  function ForType(t: RelTypeId): Expander { Expander(Both, Some(t)) }

  function ForTypeAndDirection(t: RelTypeId, d: Direction): Expander { Expander(d, Some(t)) }

  /** The node reached by following `r` from `n` under `x`, or None if `x` does not allow it. */
  function Follow(x: Expander, r: Relationship, n: NodeId): Option<NodeId> {
    if x.relType.Some? && x.relType.value != r.relType then None
    else match x.direction
      case Outgoing => if r.from == n then Some(r.to) else None
      case Incoming => if r.to == n then Some(r.from) else None
      case Both => if r.from == n then Some(r.to) else if r.to == n then Some(r.from) else None
  }

  /** `x` allows no relationship step that `y` does not: `y` is untyped or has `x`'s type, and follows `x`'s direction or both. */
  predicate Within(x: Expander, y: Expander) {
    && (y.relType.None? || y.relType == x.relType)
    && (y.direction == Both || y.direction == x.direction)
  }

  /** A narrower expander only follows steps a wider one follows too, to the same node. */
  lemma FollowWithin(x: Expander, y: Expander, r: Relationship, n: NodeId, m: NodeId)
    requires Within(x, y) && Follow(x, r, n) == Some(m)
    ensures Follow(y, r, n) == Some(m)
  {
  }

  /**
   The four expander constructors nest: a type-and-direction expander is within the
   type-only and the direction-only one, and both are within all types and directions.
   */
  lemma ConstructorsNest(t: RelTypeId, d: Direction)
    ensures Within(ForTypeAndDirection(t, d), ForType(t)) && Within(ForTypeAndDirection(t, d), ForDirection(d))
    ensures Within(ForType(t), AllTypesAndDirections()) && Within(ForDirection(d), AllTypesAndDirections())
    ensures !Within(ForDirection(d), ForType(t))
    ensures Within(ForType(t), ForDirection(d)) <==> d == Both
  {
  }

  /** Outgoing is the forwards half of both directions: the step is followed exactly when it leaves `n`. */
  lemma OutgoingIsForwardHalf(t: Option<RelTypeId>, r: Relationship, n: NodeId, m: NodeId)
    ensures Follow(Expander(Outgoing, t), r, n) == Some(m) <==> Follow(Expander(Both, t), r, n) == Some(m) && r.from == n
  {
  }

  /**
   With both directions allowed (`allTypesAndDirections`, `forType`) every step can be
   taken back: `n` reaches `m` exactly when `m` reaches `n`, over the same relationship.
   */
  lemma FollowBothWays(t: Option<RelTypeId>, r: Relationship, n: NodeId, m: NodeId)
    ensures Follow(Expander(Both, t), r, n) == Some(m) <==> Follow(Expander(Both, t), r, m) == Some(n)
  {
  }

  /** Nodes and relationships alternate: `nodes[i] -rels[i]- nodes[i+1]`. */
  datatype Path = Path(nodes: seq<NodeId>, rels: seq<Relationship>) {
    predicate Shaped() { |nodes| == |rels| + 1 }

    function Length(): nat { |rels| }

    function StartNode(): NodeId
      requires Shaped()
    {
      nodes[0]
    }

    function EndNode(): NodeId
      requires Shaped()
    {
      nodes[|nodes| - 1]
    }

    function Append(r: Relationship, m: NodeId): Path {
      Path(nodes + [m], rels + [r])
    }
  }

  /** The single-node path at `s`. */
  function Trivial(s: NodeId): Path { Path([s], []) }

  predicate Distinct<T(==)>(s: seq<T>) {
    forall i, j :: 0 <= i < j < |s| ==> s[i] != s[j]
  }

  /** Step `i` of `p` follows a relationship of `g` that `x` allows. */
  predicate StepOk(g: Graph, x: Expander, p: Path, i: nat)
    requires p.Shaped() && i < |p.rels|
  {
    p.rels[i] in g.rels && Follow(x, p.rels[i], p.nodes[i]) == Some(p.nodes[i + 1])
  }

  /** Every step of `p` from position `from` on is valid. */
  ghost predicate StepsValidFrom(g: Graph, x: Expander, p: Path, from: nat) {
    p.Shaped() && forall i :: from <= i < |p.rels| ==> StepOk(g, x, p, i)
  }

  ghost predicate IsWalk(g: Graph, x: Expander, p: Path) {
    StepsValidFrom(g, x, p, 0)
  }

  /** A walk of exactly `d` relationships from `s` to `t`, revisits allowed. */
  ghost predicate IsWalkOfLength(g: Graph, x: Expander, s: NodeId, t: NodeId, d: nat, p: Path) {
    IsWalk(g, x, p) && p.StartNode() == s && p.EndNode() == t && p.Length() == d
  }

  /** A walk of exactly `d` relationships from `s` to `t` that visits no node twice. */
  ghost predicate IsSimplePathOfLength(g: Graph, x: Expander, s: NodeId, t: NodeId, d: nat, p: Path) {
    IsWalkOfLength(g, x, s, t, d, p) && Distinct(p.nodes)
  }

  /** A path an expander allows is allowed by every wider expander. */
  lemma {:induction false} PathWithin(g: Graph, x: Expander, y: Expander, s: NodeId, t: NodeId, d: nat, p: Path)
    requires Within(x, y) && IsSimplePathOfLength(g, x, s, t, d, p)
    ensures IsSimplePathOfLength(g, y, s, t, d, p)
  {
    forall i | 0 <= i < |p.rels|
      ensures StepOk(g, y, p, i)
    {
      assert StepOk(g, x, p, i);
      FollowWithin(x, y, p.rels[i], p.nodes[i], p.nodes[i + 1]);
    }
  }

  /** `q` continues `p`. */
  ghost predicate Extends(q: Path, p: Path) {
    && q.Shaped() && p.Shaped()
    && |p.nodes| <= |q.nodes|
    && q.nodes[..|p.nodes|] == p.nodes
    && q.rels[..|p.rels|] == p.rels
  }

  /** A path ends where it should: anywhere when no target is given. */
  predicate Ends(p: Path, target: Option<NodeId>)
    requires p.Shaped()
  {
    target.None? || p.EndNode() == target.value
  }

  /** The sound-extension property shared by the two enumerator functions. */
  ghost predicate SoundExtension(g: Graph, x: Expander, loops: bool, p: Path, k: nat, target: Option<NodeId>, q: Path) {
    && Extends(q, p)
    && q.Length() == p.Length() + k
    && Ends(q, target)
    && StepsValidFrom(g, x, q, p.Length())
    && (!loops && Distinct(p.nodes) ==> Distinct(q.nodes))
  }

  lemma DistinctAppend<T>(s: seq<T>, v: T)
    requires Distinct(s) && v !in s
    ensures Distinct(s + [v])
  {
  }

  /** Extending `p` by one more valid step keeps a sound extension of the longer path sound for `p`. */
  lemma SoundExtensionStep(g: Graph, x: Expander, loops: bool, p: Path, k: nat, target: Option<NodeId>,
                           i: nat, m: NodeId, q: Path)
    requires p.Shaped() && 0 < k && i < |g.rels|
    requires Follow(x, g.rels[i], p.EndNode()) == Some(m) && (loops || m !in p.nodes)
    requires SoundExtension(g, x, loops, p.Append(g.rels[i], m), k - 1, target, q)
    ensures SoundExtension(g, x, loops, p, k, target, q)
    ensures q.rels[p.Length()] == g.rels[i]
  {
    var p' := p.Append(g.rels[i], m);
    var n := p.Length();
    assert q.nodes[..|p.nodes|] == q.nodes[..|p'.nodes|][..|p.nodes|];
    assert q.rels[..|p.rels|] == q.rels[..|p'.rels|][..|p.rels|];
    assert q.rels[n] == q.rels[..|p'.rels|][n] == g.rels[i];
    assert q.nodes[n] == q.nodes[..|p'.nodes|][n] == p.EndNode();
    assert q.nodes[n + 1] == q.nodes[..|p'.nodes|][n + 1] == m;
    assert StepOk(g, x, q, n);
    if !loops && Distinct(p.nodes) {
      DistinctAppend(p.nodes, m);
    }
  }

  /**
   All continuations of `p` by exactly `k` further relationships that end at
   `target`; without `loops`, a continuation never steps onto a node already on
   the path. Relationships are tried in graph order.
   */
  function Extensions(g: Graph, x: Expander, loops: bool, p: Path, k: nat, target: Option<NodeId>): (r: seq<Path>)
    requires p.Shaped()
    ensures forall q :: q in r ==> SoundExtension(g, x, loops, p, k, target, q)
    decreases k, |g.rels| + 1
  {
    if k == 0 then
      if Ends(p, target) then
        assert p.nodes[..|p.nodes|] == p.nodes && p.rels[..|p.rels|] == p.rels;
        [p]
      else []
    else ExtendVia(g, x, loops, p, k, target, 0)
  }

  /** The continuations of `p` whose next relationship is one of `g.rels[i..]`. */
  function ExtendVia(g: Graph, x: Expander, loops: bool, p: Path, k: nat, target: Option<NodeId>, i: nat): (r: seq<Path>)
    requires p.Shaped() && 0 < k && i <= |g.rels|
    ensures forall q :: q in r ==> SoundExtension(g, x, loops, p, k, target, q)
    ensures forall q :: q in r ==> p.Length() < q.Length() && q.rels[p.Length()] in g.rels[i..]
    decreases k, |g.rels| - i
  {
    if i == |g.rels| then []
    else
      var rest := ExtendVia(g, x, loops, p, k, target, i + 1);
      var here := Branch(g, x, loops, p, k, target, i);
      assert forall q :: q in rest ==> q.rels[p.Length()] in g.rels[i..] by {
        assert g.rels[i..] == [g.rels[i]] + g.rels[i + 1..];
      }
      here + rest
  }

  /** The continuations of `p` whose next relationship is `g.rels[i]`. */
  function Branch(g: Graph, x: Expander, loops: bool, p: Path, k: nat, target: Option<NodeId>, i: nat): (r: seq<Path>)
    requires p.Shaped() && 0 < k && i < |g.rels|
    ensures forall q :: q in r ==> SoundExtension(g, x, loops, p, k, target, q)
    ensures forall q :: q in r ==> p.Length() < q.Length() && q.rels[p.Length()] == g.rels[i]
    decreases k, 0
  {
    match Follow(x, g.rels[i], p.EndNode())
    case Some(m) =>
      if loops || m !in p.nodes then
        var r := Extensions(g, x, loops, p.Append(g.rels[i], m), k - 1, target);
        assert forall q | q in r :: SoundExtension(g, x, loops, p, k, target, q) && q.rels[p.Length()] == g.rels[i] by {
          forall q | q in r ensures SoundExtension(g, x, loops, p, k, target, q) && q.rels[p.Length()] == g.rels[i] {
            SoundExtensionStep(g, x, loops, p, k, target, i, m, q);
          }
        }
        r
      else []
    case None => []
  }

  /** Every valid continuation of `p` by `k` steps to `target` is enumerated. */
  lemma {:induction false} ExtensionsComplete(g: Graph, x: Expander, loops: bool, p: Path, k: nat,
                                              target: Option<NodeId>, q: Path)
    requires p.Shaped() && Extends(q, p) && q.Length() == p.Length() + k && Ends(q, target)
    requires StepsValidFrom(g, x, q, p.Length()) && (loops || Distinct(q.nodes))
    ensures q in Extensions(g, x, loops, p, k, target)
    decreases k
  {
    if k == 0 {
      assert q.nodes == q.nodes[..|p.nodes|] && q.rels == q.rels[..|p.rels|];
    } else {
      var n := p.Length();
      var r, m := q.rels[n], q.nodes[n + 1];
      assert StepOk(g, x, q, n);
      var j :| 0 <= j < |g.rels| && g.rels[j] == r;
      assert q.nodes[n] == q.nodes[..|p.nodes|][n] == p.EndNode();
      var p' := p.Append(r, m);
      assert q.nodes[..|p'.nodes|] == p'.nodes by {
        assert q.nodes[..|p'.nodes|] == q.nodes[..|p.nodes|] + [m];
      }
      assert q.rels[..|p'.rels|] == p'.rels by {
        assert q.rels[..|p'.rels|] == q.rels[..|p.rels|] + [r];
      }
      if !loops {
        forall v | v in p.nodes ensures v != m {
          var a :| 0 <= a < |p.nodes| && p.nodes[a] == v;
          assert q.nodes[a] == q.nodes[..|p.nodes|][a];
        }
      }
      ExtensionsComplete(g, x, loops, p', k - 1, target, q);
      ExtendViaContains(g, x, loops, p, k, target, 0, j, m, q);
    }
  }

  /** `ExtendVia` from index `i` contains every continuation through a later relationship. */
  lemma {:induction false} ExtendViaContains(g: Graph, x: Expander, loops: bool, p: Path, k: nat,
                                             target: Option<NodeId>, i: nat, j: nat, m: NodeId, q: Path)
    requires p.Shaped() && 0 < k && i <= j < |g.rels|
    requires Follow(x, g.rels[j], p.EndNode()) == Some(m) && (loops || m !in p.nodes)
    requires q in Extensions(g, x, loops, p.Append(g.rels[j], m), k - 1, target)
    ensures q in ExtendVia(g, x, loops, p, k, target, i)
    decreases j - i
  {
    if i < j {
      ExtendViaContains(g, x, loops, p, k, target, i + 1, j, m, q);
    }
  }

  lemma DistinctConcat<T>(a: seq<T>, b: seq<T>)
    requires Distinct(a) && Distinct(b)
    requires forall v :: v in a ==> v !in b
    ensures Distinct(a + b)
  {
    forall i, j | 0 <= i < j < |a + b| ensures (a + b)[i] != (a + b)[j] {
      if j >= |a| && i < |a| {
        assert (a + b)[i] in a && (a + b)[j] in b;
      }
    }
  }

  /** On a graph with unique relationship identities, no continuation is enumerated twice. */
  lemma {:induction false} ExtensionsDistinct(g: Graph, x: Expander, loops: bool, p: Path, k: nat, target: Option<NodeId>)
    requires WellFormed(g) && p.Shaped()
    ensures Distinct(Extensions(g, x, loops, p, k, target))
    decreases k, |g.rels| + 1
  {
    if k > 0 {
      ExtendViaDistinct(g, x, loops, p, k, target, 0);
    }
  }

  lemma {:induction false} ExtendViaDistinct(g: Graph, x: Expander, loops: bool, p: Path, k: nat,
                                             target: Option<NodeId>, i: nat)
    requires WellFormed(g) && p.Shaped() && 0 < k && i <= |g.rels|
    ensures Distinct(ExtendVia(g, x, loops, p, k, target, i))
    decreases k, |g.rels| - i
  {
    if i < |g.rels| {
      var here := Branch(g, x, loops, p, k, target, i);
      var rest := ExtendVia(g, x, loops, p, k, target, i + 1);
      match Follow(x, g.rels[i], p.EndNode()) {
        case Some(m) =>
          if loops || m !in p.nodes {
            ExtensionsDistinct(g, x, loops, p.Append(g.rels[i], m), k - 1, target);
          }
        case None =>
      }
      ExtendViaDistinct(g, x, loops, p, k, target, i + 1);
      DistinctConcat(here, rest);
    }
  }

  /**
   All node-simple paths of exactly `depth` relationships from `s` to `t`
   (loops disallowed). Each such path appears exactly once.
   */
  function FindAllPaths(g: Graph, x: Expander, depth: nat, s: NodeId, t: NodeId): (r: seq<Path>)
    ensures forall q :: q in r ==> IsSimplePathOfLength(g, x, s, t, depth, q)
    ensures forall q :: IsSimplePathOfLength(g, x, s, t, depth, q) ==> q in r
    ensures WellFormed(g) ==> Distinct(r)
  {
    FindAllPathsComplete(g, x, depth, s, t);
    if WellFormed(g) then ExtensionsDistinct(g, x, false, Trivial(s), depth, Some(t)); Extensions(g, x, false, Trivial(s), depth, Some(t))
    else Extensions(g, x, false, Trivial(s), depth, Some(t))
  }

  lemma FindAllPathsComplete(g: Graph, x: Expander, depth: nat, s: NodeId, t: NodeId)
    ensures forall q :: IsSimplePathOfLength(g, x, s, t, depth, q) ==> q in Extensions(g, x, false, Trivial(s), depth, Some(t))
  {
    forall q | IsSimplePathOfLength(g, x, s, t, depth, q)
      ensures q in Extensions(g, x, false, Trivial(s), depth, Some(t))
    {
      assert q.nodes[..1] == [s];
      ExtensionsComplete(g, x, false, Trivial(s), depth, Some(t), q);
    }
  }

  /** The first path `FindAllPaths` produces, if any. */
  function FindSinglePath(g: Graph, x: Expander, depth: nat, s: NodeId, t: NodeId): (r: Option<Path>)
    ensures r.None? <==> FindAllPaths(g, x, depth, s, t) == []
    ensures r.Some? ==> r.value in FindAllPaths(g, x, depth, s, t) && IsSimplePathOfLength(g, x, s, t, depth, r.value)
    ensures r.None? ==> forall q :: !IsSimplePathOfLength(g, x, s, t, depth, q)
  {
    var all := FindAllPaths(g, x, depth, s, t);
    if all == [] then None else Some(all[0])
  }

  /** All walks of exactly `depth` relationships from `s` to `t`, revisiting nodes allowed. */
  function FindAllWalks(g: Graph, x: Expander, depth: nat, s: NodeId, t: NodeId): (r: seq<Path>)
    ensures forall q :: q in r ==> IsWalkOfLength(g, x, s, t, depth, q)
    ensures forall q :: IsWalkOfLength(g, x, s, t, depth, q) ==> q in r
    ensures WellFormed(g) ==> Distinct(r)
  {
    FindAllWalksComplete(g, x, depth, s, t);
    if WellFormed(g) then ExtensionsDistinct(g, x, true, Trivial(s), depth, Some(t)); Extensions(g, x, true, Trivial(s), depth, Some(t))
    else Extensions(g, x, true, Trivial(s), depth, Some(t))
  }

  lemma FindAllWalksComplete(g: Graph, x: Expander, depth: nat, s: NodeId, t: NodeId)
    ensures forall q :: IsWalkOfLength(g, x, s, t, depth, q) ==> q in Extensions(g, x, true, Trivial(s), depth, Some(t))
  {
    forall q | IsWalkOfLength(g, x, s, t, depth, q)
      ensures q in Extensions(g, x, true, Trivial(s), depth, Some(t))
    {
      assert q.nodes[..1] == [s];
      ExtensionsComplete(g, x, true, Trivial(s), depth, Some(t), q);
    }
  }

  lemma {:induction false} DistinctOccurrences<T>(s: seq<T>, v: T)
    requires Distinct(s)
    ensures multiset(s)[v] == if v in s then 1 else 0
  {
    if s != [] {
      assert s == [s[0]] + s[1..];
      assert Distinct(s[1..]);
      DistinctOccurrences(s[1..], v);
      assert s[0] !in s[1..];
    }
  }

  /** Two duplicate-free sequences with the same elements hold the same multiset. */
  lemma SameElementsSameMultiset<T>(a: seq<T>, b: seq<T>)
    requires Distinct(a) && Distinct(b)
    requires forall v :: v in a <==> v in b
    ensures multiset(a) == multiset(b)
  {
    forall v ensures multiset(a)[v] == multiset(b)[v] {
      DistinctOccurrences(a, v);
      DistinctOccurrences(b, v);
    }
  }

  /**
   When `expected` lists, without repetition, exactly the simple paths of
   length `depth`, `FindAllPaths` returns each of them exactly once and nothing else.
   */
  lemma FindAllPathsExactly(g: Graph, x: Expander, depth: nat, s: NodeId, t: NodeId, expected: seq<Path>)
    requires WellFormed(g) && Distinct(expected)
    requires forall p :: p in expected ==> IsSimplePathOfLength(g, x, s, t, depth, p)
    requires forall q :: IsSimplePathOfLength(g, x, s, t, depth, q) ==> q in expected
    ensures multiset(FindAllPaths(g, x, depth, s, t)) == multiset(expected)
  {
    SameElementsSameMultiset(FindAllPaths(g, x, depth, s, t), expected);
  }

  /** The walk counterpart of `FindAllPathsExactly`. */
  lemma FindAllWalksExactly(g: Graph, x: Expander, depth: nat, s: NodeId, t: NodeId, expected: seq<Path>)
    requires WellFormed(g) && Distinct(expected)
    requires forall p :: p in expected ==> IsWalkOfLength(g, x, s, t, depth, p)
    requires forall q :: IsWalkOfLength(g, x, s, t, depth, q) ==> q in expected
    ensures multiset(FindAllWalks(g, x, depth, s, t)) == multiset(expected)
  {
    SameElementsSameMultiset(FindAllWalks(g, x, depth, s, t), expected);
  }
}
