/**
 Building blocks for the fixture graphs of the exact-depth path finder's tests:
 every relationship created by an edge chain has type R1, and relationships
 are numbered in creation order.
 */
module TestGraphs {
  import opened PathFinding

  const R1: RelTypeId := 1

  /** The relationship `from -[R1]-> to` created as the `id`-th relationship of a fixture. */
  function Rel(id: nat, from: NodeId, to: NodeId): Relationship {
    Relationship(id, from, to, R1)
  }

  /** The relationships of `rels` are numbered `first`, `first + 1`, ... */
  predicate NumberedFrom(rels: seq<Relationship>, first: nat) {
    forall i :: 0 <= i < |rels| ==> rels[i].id == first + i
  }

  lemma NumberedConcat(a: seq<Relationship>, b: seq<Relationship>, first: nat)
    requires NumberedFrom(a, first) && NumberedFrom(b, first + |a|)
    ensures NumberedFrom(a + b, first)
  {
  }

  /** Relationships numbered consecutively have distinct identities. */
  lemma NumberedWellFormed(g: Graph)
    requires NumberedFrom(g.rels, 0)
    ensures WellFormed(g)
  {
  }

  /** A sequence of length 1 is the display of its own elements. */
  lemma ElementsOf1<T>(s: seq<T>)
    requires |s| == 1
    ensures s == [s[0]]
  {
  }

  /** A sequence of length 2 is the display of its own elements. */
  lemma ElementsOf2<T>(s: seq<T>)
    requires |s| == 2
    ensures s == [s[0], s[1]]
  {
  }

  /** A sequence of length 3 is the display of its own elements. */
  lemma ElementsOf3<T>(s: seq<T>)
    requires |s| == 3
    ensures s == [s[0], s[1], s[2]]
  {
  }

  /** A sequence of length 4 is the display of its own elements. */
  lemma ElementsOf4<T>(s: seq<T>)
    requires |s| == 4
    ensures s == [s[0], s[1], s[2], s[3]]
  {
  }

  /** A sequence of length 5 is the display of its own elements. */
  lemma ElementsOf5<T>(s: seq<T>)
    requires |s| == 5
    ensures s == [s[0], s[1], s[2], s[3], s[4]]
  {
  }

  /** A sequence of length 6 is the display of its own elements. */
  lemma ElementsOf6<T>(s: seq<T>)
    requires |s| == 6
    ensures s == [s[0], s[1], s[2], s[3], s[4], s[5]]
  {
  }

  /** A sequence of length 7 is the display of its own elements. */
  lemma ElementsOf7<T>(s: seq<T>)
    requires |s| == 7
    ensures s == [s[0], s[1], s[2], s[3], s[4], s[5], s[6]]
  {
  }

  /** A sequence of length 8 is the display of its own elements. */
  lemma ElementsOf8<T>(s: seq<T>)
    requires |s| == 8
    ensures s == [s[0], s[1], s[2], s[3], s[4], s[5], s[6], s[7]]
  {
  }

  /** A sequence of length 9 is the display of its own elements. */
  lemma ElementsOf9<T>(s: seq<T>)
    requires |s| == 9
    ensures s == [s[0], s[1], s[2], s[3], s[4], s[5], s[6], s[7], s[8]]
  {
  }
}
