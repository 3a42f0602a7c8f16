/**
 The label-scan progressor: it walks the entries of a label index, each entry a
 range of 64 node ids together with a 64-bit word whose set bits mark the nodes
 of that range that carry the label, and offers every marked node id, lowest
 first, to a client predicate until the client accepts one.
 */
module LabelScan {
  import opened Wrappers

  /** Node ids covered by one entry: the width of its bit word. */
  const RangeSize: nat := 64

  /* ---------------------------------------------------------------------- */
  /* Node ids marked by a 64-bit word                                        */
  /* ---------------------------------------------------------------------- */

  /**
   `base + n + i` for every set bit `i` among the low `64 - n` bits of `w`,
   in ascending order. `Ids(base, b)` below starts at `n = 0`; each step reads
   the lowest bit and shifts the word right by one.
   */
  function IdsFrom(base: int, w: bv64, n: nat): seq<int>
    requires n <= 64
    decreases 64 - n
  {
    if n == 64 then []
    else (if w & 1 == 1 then [base + n] else []) + IdsFrom(base, w >> 1, n + 1)
  }

  /** The node ids marked by the word `b` of the range starting at `base`. */
  function Ids(base: int, b: bv64): seq<int> {
    IdsFrom(base, b, 0)
  }

  /** `Long.numberOfTrailingZeros`, read from position `n` of the shifted word `w` on. */
  function TrailingZerosFrom(w: bv64, n: nat): (r: nat)
    requires n <= 64
    ensures n <= r <= 64
    decreases 64 - n
  {
    if n == 64 then 64
    else if w & 1 == 1 then n
    else TrailingZerosFrom(w >> 1, n + 1)
  }

  /** `Long.numberOfTrailingZeros`: the position of the lowest set bit, or 64 for zero. */
  function TrailingZeros(b: bv64): nat {
    TrailingZerosFrom(b, 0)
  }

  /** Drops the first element of a sequence, if any. */
  function Rest(s: seq<int>): seq<int> {
    if s == [] then [] else s[1..]
  }

  lemma ClearLowestOdd(w: bv64)
    requires w & 1 == 1
    ensures (w & (w - 1)) & 1 == 0 && (w & (w - 1)) >> 1 == w >> 1
  {
  }

  lemma ClearLowestEven(w: bv64)
    requires w & 1 == 0
    ensures (w & (w - 1)) & 1 == 0 && (w & (w - 1)) >> 1 == (w >> 1) & ((w >> 1) - 1)
  {
  }

  /**
   `c` is `w` with its lowest set bit cleared, looking at the low `k` bits only: bit by bit,
   the bits agree below the lowest set bit of `w`, that bit is clear in `c`, and all higher
   bits agree.
   */
  predicate Cleared(w: bv64, c: bv64, k: nat)
    decreases k
  {
    k == 0 || (
      && c & 1 == 0
      && if w & 1 == 1 then c >> 1 == w >> 1 else Cleared(w >> 1, c >> 1, k - 1))
  }

  lemma {:induction false} ClearLowestCleared(w: bv64, k: nat)
    ensures Cleared(w, w & (w - 1), k)
    decreases k
  {
    if k > 0 {
      if w & 1 == 1 {
        ClearLowestOdd(w);
      } else {
        ClearLowestEven(w);
        ClearLowestCleared(w >> 1, k - 1);
      }
    }
  }

  lemma {:induction false} IdsFromCleared(base: int, w: bv64, c: bv64, n: nat)
    requires n <= 64 && Cleared(w, c, 64 - n)
    ensures IdsFrom(base, c, n) == Rest(IdsFrom(base, w, n))
    decreases 64 - n
  {
    if n < 64 && w & 1 == 0 {
      IdsFromCleared(base, w >> 1, c >> 1, n + 1);
    }
  }

  /** `b & (b - 1)` clears exactly the lowest set bit of `b`: its ids are those of `b` without the first. */
  lemma IdsClearLowest(base: int, b: bv64)
    ensures Ids(base, b & (b - 1)) == Rest(Ids(base, b))
  {
    ClearLowestCleared(b, 64);
    IdsFromCleared(base, b, b & (b - 1), 0);
  }

  lemma {:induction false} IdsFromFirst(base: int, w: bv64, n: nat)
    requires n <= 64
    ensures IdsFrom(base, w, n) == [] <==> TrailingZerosFrom(w, n) == 64
    ensures IdsFrom(base, w, n) != [] ==> IdsFrom(base, w, n)[0] == base + TrailingZerosFrom(w, n)
    decreases 64 - n
  {
    if n < 64 && w & 1 == 0 {
      IdsFromFirst(base, w >> 1, n + 1);
    }
  }

  /** `w` shifted right by one bit `k` times. */
  function ShiftedRight(w: bv64, k: nat): bv64
    decreases k
  {
    if k == 0 then w else ShiftedRight(w >> 1, k - 1)
  }

  lemma {:induction false} ShiftedRightAdd(w: bv64, a: nat, b: nat)
    ensures ShiftedRight(w, a + b) == ShiftedRight(ShiftedRight(w, a), b)
    decreases a
  {
    if a > 0 {
      ShiftedRightAdd(w >> 1, a - 1, b);
    }
  }

  lemma ShiftedRightByte(w: bv64)
    ensures ShiftedRight(w, 8) == w >> 8
  {
    assert ShiftedRight(w, 8) == ShiftedRight(w >> 1 >> 1 >> 1 >> 1, 4);
    assert ShiftedRight(w >> 1 >> 1 >> 1 >> 1, 4) == ShiftedRight(w >> 1 >> 1 >> 1 >> 1 >> 1 >> 1 >> 1 >> 1, 0);
  }

  lemma ShiftedRightHalf(w: bv64)
    ensures ShiftedRight(w, 32) == w >> 32
  {
    ShiftedRightAdd(w, 8, 24);
    ShiftedRightByte(w);
    assert w >> 8 >> 8 == w >> 16 && w >> 16 >> 8 == w >> 24 && w >> 24 >> 8 == w >> 32;
    ShiftedRightAdd(w >> 8, 8, 16);
    ShiftedRightByte(w >> 8);
    ShiftedRightAdd(w >> 16, 8, 8);
    ShiftedRightByte(w >> 16);
    ShiftedRightByte(w >> 24);
  }

  /** Sixty-four one-bit shifts leave nothing of a 64-bit word. */
  lemma ShiftedOut(w: bv64)
    ensures ShiftedRight(w, 64) == 0
  {
    ShiftedRightAdd(w, 32, 32);
    ShiftedRightHalf(w);
    ShiftedRightHalf(w >> 32);
    assert w >> 32 >> 32 == 0;
  }

  lemma EvenHalfZero(w: bv64)
    requires w & 1 == 0 && w >> 1 == 0
    ensures w == 0
  {
  }

  lemma {:induction false} IdsFromEmpty(base: int, w: bv64, n: nat)
    requires n <= 64
    requires IdsFrom(base, w, n) == [] && ShiftedRight(w, 64 - n) == 0
    ensures w == 0
    decreases 64 - n
  {
    if n < 64 {
      IdsFromEmpty(base, w >> 1, n + 1);
      EvenHalfZero(w);
    }
  }

  lemma {:induction false} IdsFromZero(base: int, n: nat)
    requires n <= 64
    ensures IdsFrom(base, 0, n) == []
    decreases 64 - n
  {
    if n < 64 {
      IdsFromZero(base, n + 1);
    }
  }

  /** A word marks no node exactly when it is zero. */
  lemma IdsEmpty(base: int, b: bv64)
    ensures Ids(base, b) == [] <==> b == 0
  {
    if b == 0 {
      IdsFromZero(base, 0);
    } else if Ids(base, b) == [] {
      ShiftedOut(b);
      IdsFromEmpty(base, b, 0);
    }
  }

  /** The first id of a non-zero word is `base + numberOfTrailingZeros`. */
  lemma IdsFirst(base: int, b: bv64)
    requires b != 0
    ensures Ids(base, b) != [] && Ids(base, b)[0] == base + TrailingZeros(b)
  {
    IdsEmpty(base, b);
    IdsFromFirst(base, b, 0);
  }

  predicate StrictlyIncreasing(s: seq<int>) {
    forall i, j :: 0 <= i < j < |s| ==> s[i] < s[j]
  }

  lemma {:induction false} IdsFromInRange(base: int, w: bv64, n: nat)
    requires n <= 64
    ensures StrictlyIncreasing(IdsFrom(base, w, n))
    ensures forall k :: 0 <= k < |IdsFrom(base, w, n)| ==> base + n <= IdsFrom(base, w, n)[k] < base + RangeSize
    decreases 64 - n
  {
    if n < 64 {
      IdsFromInRange(base, w >> 1, n + 1);
    }
  }

  /** The ids of one word are strictly increasing and lie in `[base, base + RangeSize)`. */
  lemma IdsInRange(base: int, b: bv64)
    ensures StrictlyIncreasing(Ids(base, b))
    ensures forall k :: 0 <= k < |Ids(base, b)| ==> base <= Ids(base, b)[k] < base + RangeSize
  {
    IdsFromInRange(base, b, 0);
  }

  /* ---------------------------------------------------------------------- */
  /* The progressor                                                          */
  /* ---------------------------------------------------------------------- */

  /** One entry of the label index: an id range and the word marking the nodes of that range that carry the label. */
  datatype Entry = Entry(idRange: nat, bits: bv64)

  /**
   The state of a progressor. The cursor has returned `entries[..pos]`;
   `baseNodeId` and `bits` hold the entry being walked, with the bits already
   offered cleared. `closed` records that the progressor (and its cursor) is
   closed, `clientCloseable` that the client is an `AutoCloseablePlus`, and
   `clientCloses` how many times the progressor has called the client's `close()`.
   */
  datatype Progressor = Progressor(
    entries: seq<Entry>,
    pos: nat,
    baseNodeId: int,
    bits: bv64,
    closed: bool,
    clientCloseable: bool,
    clientCloses: nat)

  predicate Valid(s: Progressor) {
    s.pos <= |s.entries|
  }

  /** The first node id of an entry's range. */
  function EntryBase(e: Entry): int {
    e.idRange * RangeSize
  }

  /** The node ids marked by a run of entries, entry by entry. */
  function EntriesIds(es: seq<Entry>): seq<int> {
    if es == [] then [] else Ids(EntryBase(es[0]), es[0].bits) + EntriesIds(es[1..])
  }

  lemma EntriesIdsAt(es: seq<Entry>, i: nat)
    requires i < |es|
    ensures EntriesIds(es[i..]) == Ids(EntryBase(es[i]), es[i].bits) + EntriesIds(es[i + 1..])
  {
    assert es[i..][1..] == es[i + 1..];
  }

  /** The node ids the progressor has still to offer: the rest of the current word, then every entry the cursor has not returned. */
  function Pending(s: Progressor): seq<int>
    requires Valid(s)
  {
    Ids(s.baseNodeId, s.bits) + EntriesIds(s.entries[s.pos..])
  }

  /** A progressor over the cursor `entries`, before its first `next()`: no word loaded yet. */
  function Open(entries: seq<Entry>, clientCloseable: bool): (s: Progressor)
    ensures Valid(s) && !s.closed && s.clientCloses == 0
    ensures Pending(s) == EntriesIds(entries)
  {
    IdsFromZero(0, 0);
    Progressor(entries, 0, 0, 0, false, clientCloseable, 0)
  }

  /** The candidate of the inner loop, `baseNodeId + numberOfTrailingZeros(bits)`: the lowest id left in the current word. */
  function Candidate(s: Progressor): (r: int)
    requires s.bits != 0
    ensures Ids(s.baseNodeId, s.bits) != [] && r == Ids(s.baseNodeId, s.bits)[0]
  {
    IdsFirst(s.baseNodeId, s.bits);
    s.baseNodeId + TrailingZeros(s.bits)
  }

  /** `bits &= bits - 1`: drops the candidate from the current word and changes nothing else. */
  function Consume(s: Progressor): (t: Progressor)
    requires s.bits != 0
    ensures Ids(s.baseNodeId, s.bits) != [] && Ids(t.baseNodeId, t.bits) == Ids(s.baseNodeId, s.bits)[1..]
    ensures t == s.(bits := t.bits)
  {
    IdsFirst(s.baseNodeId, s.bits);
    IdsClearLowest(s.baseNodeId, s.bits);
    s.(bits := s.bits & (s.bits - 1))
  }

  lemma AppendOne(a: seq<int>, x: int)
    ensures (a + [x])[..|a|] == a && (a + [x])[|a|] == x && |a + [x]| == |a| + 1
  {
  }

  lemma ConsView(w: seq<int>)
    requires w != []
    ensures w == [w[0]] + w[1..]
  {
  }

  lemma HeadThenRest(w: seq<int>, e: seq<int>)
    requires w != []
    ensures w + e == [w[0]] + (w[1..] + e)
  {
    assert w == [w[0]] + w[1..];
  }

  /** One pass of the inner loop offers the first pending id and leaves the rest pending. */
  lemma ConsumePending(s: Progressor)
    requires Valid(s) && s.bits != 0
    ensures Valid(Consume(s)) && Pending(s) == [Candidate(s)] + Pending(Consume(s))
  {
    var t := Consume(s);
    var e := EntriesIds(s.entries[s.pos..]);
    assert t.entries == s.entries && t.pos == s.pos;
    assert Pending(t) == Ids(t.baseNodeId, t.bits) + e;
    HeadThenRest(Ids(s.baseNodeId, s.bits), e);
  }

  /** Moves the cursor to its next entry and loads it: `baseNodeId = idRange * RANGE_SIZE`, `bits` = the entry's word. */
  function Load(s: Progressor): (t: Progressor)
    requires Valid(s) && s.pos < |s.entries|
    ensures Valid(t) && t.pos == s.pos + 1
    ensures t.baseNodeId == EntryBase(s.entries[s.pos]) && t.bits == s.entries[s.pos].bits
    ensures s.bits == 0 ==> Pending(t) == Pending(s)
    ensures t.entries == s.entries && t.closed == s.closed
    ensures t.clientCloseable == s.clientCloseable && t.clientCloses == s.clientCloses
  {
    IdsFromZero(s.baseNodeId, 0);
    EntriesIdsAt(s.entries, s.pos);
    s.(pos := s.pos + 1, baseNodeId := EntryBase(s.entries[s.pos]), bits := s.entries[s.pos].bits)
  }

  /** The client `close()` calls one `close()` of the progressor makes: one for an `AutoCloseablePlus` client, none otherwise. */
  function CloseCalls(clientCloseable: bool): nat {
    if clientCloseable then 1 else 0
  }

  /** Closes the progressor's cursor and, when the client is an `AutoCloseablePlus`, the client too. */
  function Close(s: Progressor): (t: Progressor)
    ensures t.closed
    ensures t.clientCloses == s.clientCloses + CloseCalls(s.clientCloseable)
    ensures t.entries == s.entries && t.pos == s.pos && t.baseNodeId == s.baseNodeId && t.bits == s.bits
    ensures t.clientCloseable == s.clientCloseable
    ensures Valid(s) ==> Valid(t) && Pending(t) == Pending(s)
  {
    s.(closed := true, clientCloses := s.clientCloses + CloseCalls(s.clientCloseable))
  }

  /**
   `close()` is not guarded against repeats: a second close leaves the cursor state and
   the pending ids as the first left them, and calls a closeable client's `close()` again.
   */
  lemma CloseAgain(s: Progressor)
    requires Valid(s)
    ensures var once, twice := Close(s), Close(Close(s));
      && twice.closed && twice.entries == once.entries && twice.pos == once.pos
      && Pending(twice) == Pending(once) == Pending(s)
      && twice.clientCloses == once.clientCloses + CloseCalls(s.clientCloseable)
      && (s.clientCloseable <==> twice.clientCloses == s.clientCloses + 2)
      && (!s.clientCloseable <==> twice.clientCloses == s.clientCloses)
  {
  }

  /** No id of `ids` is accepted by the client. */
  predicate Rejected(ids: seq<int>, accept: int -> bool) {
    forall j :: 0 <= j < |ids| ==> !accept(ids[j])
  }

  lemma RejectedConcat(a: seq<int>, b: seq<int>, accept: int -> bool)
    requires Rejected(a, accept) && Rejected(b, accept)
    ensures Rejected(a + b, accept)
  {
  }

  /** The position of the first id in `ids` the client accepts, if there is one. */
  function FirstAccepted(ids: seq<int>, accept: int -> bool): (r: Option<nat>)
    ensures r.Some? ==> r.value < |ids| && accept(ids[r.value])
    ensures r.Some? ==> Rejected(ids[..r.value], accept)
    ensures r.None? <==> Rejected(ids, accept)
  {
    if ids == [] then None
    else if accept(ids[0]) then Some(0)
    else match FirstAccepted(ids[1..], accept)
      case None => None
      case Some(k) =>
        assert ids[..k + 1] == [ids[0]] + ids[1..][..k];
        Some(k + 1)
  }

  /** When `ids` is rejected ids, then an accepted one, then the rest, the accepted one is the first. */
  lemma FirstAcceptedAt(ids: seq<int>, before: seq<int>, x: int, after: seq<int>, accept: int -> bool)
    requires ids == before + [x] + after
    requires Rejected(before, accept) && accept(x)
    ensures FirstAccepted(ids, accept) == Some(|before|)
    ensures ids[..|before| + 1] == before + [x] && ids[|before| + 1..] == after
  {
    assert ids[|before|] == x;
    assert ids[..|before|] == before;
    assert ids[..|before| + 1] == before + [x];
    assert ids[|before| + 1..] == after;
  }

  lemma Regroup(a: seq<int>, x: int, b: seq<int>)
    ensures a + ([x] + b) == (a + [x]) + b
  {
  }

  /** Splits a non-empty id sequence into its first id and the rest. */
  lemma IdsHead(base: int, b: bv64)
    requires b != 0
    ensures Ids(base, b) == [base + TrailingZeros(b)] + Ids(base, b & (b - 1))
  {
    IdsFirst(base, b);
    IdsClearLowest(base, b);
    ConsView(Ids(base, b));
  }

  /**
   One step of the inner loop of `next()` on a non-zero word: the id offered is
   `base + numberOfTrailingZeros(rest)` and `rest &= rest - 1` removes it from the word.
   */
  method Take(base: int, rest: bv64) returns (id: int, left: bv64)
    requires rest != 0
    ensures Ids(base, rest) == [id] + Ids(base, left)
    ensures |Ids(base, left)| == |Ids(base, rest)| - 1
  {
    id := base + TrailingZeros(rest);
    left := rest & (rest - 1);
    IdsHead(base, rest);
  }

  lemma OfferStep(bitsIds: seq<int>, offered: seq<int>, restIds: seq<int>, id: int, leftIds: seq<int>)
    requires bitsIds == offered + restIds && restIds == [id] + leftIds
    ensures bitsIds == (offered + [id]) + leftIds && |leftIds| < |restIds|
  {
    Regroup(offered, id, leftIds);
  }

  /**
   The inner loop of `next()` on the word `bits` of the range at `base`: offers
   its ids to the client, lowest first, each as `base + numberOfTrailingZeros(bits)`
   followed by `bits &= bits - 1`, until one is accepted or the word is empty.
   `rest` is what is left of the word.
   */
  method OfferWord(base: int, bits: bv64, accept: int -> bool) returns (rest: bv64, offered: seq<int>, found: bool)
    ensures Ids(base, bits) == offered + Ids(base, rest)
    ensures found ==> offered != [] && accept(offered[|offered| - 1]) && Rejected(offered[..|offered| - 1], accept)
    ensures !found ==> rest == 0 && Rejected(offered, accept)
    ensures offered == [] <==> bits == 0
  {
    IdsEmpty(base, bits);
    IdsEmpty(base, 0);
    rest, offered := bits, [];
    assert Ids(base, bits) == [] + Ids(base, bits);
    while rest != 0
      invariant Ids(base, bits) == offered + Ids(base, rest)
      invariant Rejected(offered, accept)
      decreases |Ids(base, rest)|
    {
      var id, left := Take(base, rest);
      OfferStep(Ids(base, bits), offered, Ids(base, rest), id, Ids(base, left));
      AppendOne(offered, id);
      rest, offered := left, offered + [id];
      if accept(id) {
        return rest, offered, true;
      }
    }
    found := false;
  }

  /**
   `next()`: offers the pending ids to the client in order until it accepts one.
   `offered` lists the ids offered, in order, and `found` is the returned flag.
   If the client accepts some pending id, the first such is the last one offered
   and the rest stay pending; otherwise every pending id is offered and rejected,
   and the progressor closes itself (and an `AutoCloseablePlus` client).
   */
  method Next(s: Progressor, accept: int -> bool) returns (t: Progressor, offered: seq<int>, found: bool)
    requires Valid(s)
    decreases |s.entries| - s.pos
    ensures Valid(t) && t.entries == s.entries && t.clientCloseable == s.clientCloseable
    ensures Outcome(Pending(s), Pending(t), offered, found, accept)
    ensures found ==> t.closed == s.closed && t.clientCloses == s.clientCloses
    ensures !found ==> t.closed && t.clientCloses == s.clientCloses + CloseCalls(s.clientCloseable)
  {
    var u, more, accepted, exhausted := Advance(s, accept);
    if accepted {
      OutcomeAccepted(more, Pending(u), accept);
      return u, more, true;
    }
    if exhausted {
      OutcomeExhausted(more, accept);
      return u, more, false;
    }
    var rest;
    t, rest, found := Next(u, accept);
    offered := more + rest;
    OutcomeAfterRejected(more, Pending(u), Pending(t), rest, found, accept);
  }

  /**
   What one `next()` does to the pending ids `p`, leaving `q` pending: if the client accepts
   some id of `p`, the first such is the last one offered and the ids after it stay pending;
   otherwise all of `p` is offered and nothing stays pending.
   */
  predicate Outcome(p: seq<int>, q: seq<int>, offered: seq<int>, found: bool, accept: int -> bool) {
    && (found <==> FirstAccepted(p, accept).Some?)
    && (found ==> (
      var k := FirstAccepted(p, accept).value;
      offered == p[..k + 1] && q == p[k + 1..]))
    && (!found ==> offered == p && q == [])
  }

  lemma OutcomeAccepted(more: seq<int>, rest: seq<int>, accept: int -> bool)
    requires more != [] && accept(more[|more| - 1]) && Rejected(more[..|more| - 1], accept)
    ensures Outcome(more + rest, rest, more, true, accept)
  {
    assert more + rest == [] + (more + rest);
    AcceptedIsFirst(more + rest, [], more, rest, accept);
  }

  lemma OutcomeExhausted(more: seq<int>, accept: int -> bool)
    requires Rejected(more, accept)
    ensures Outcome(more, [], more, false, accept)
  {
  }

  lemma OutcomeAfterRejected(more: seq<int>, p: seq<int>, q: seq<int>, offered: seq<int>, found: bool, accept: int -> bool)
    requires Rejected(more, accept) && Outcome(p, q, offered, found, accept)
    ensures Outcome(more + p, q, more + offered, found, accept)
  {
    RejectedPrefix(more, p, accept);
  }

  /**
   One pass of the loop in `next()`: offer the rest of the current word, and when the client
   accepted none of it either load the next entry or, once the cursor is exhausted, close.
   */
  method Advance(t: Progressor, accept: int -> bool) returns (u: Progressor, more: seq<int>, accepted: bool, exhausted: bool)
    requires Valid(t)
    ensures Valid(u) && u.entries == t.entries && u.clientCloseable == t.clientCloseable
    ensures Pending(t) == more + Pending(u)
    ensures accepted ==> (
      && more != [] && accept(more[|more| - 1]) && Rejected(more[..|more| - 1], accept)
      && u.closed == t.closed && u.clientCloses == t.clientCloses)
    ensures !accepted ==> Rejected(more, accept)
    ensures !accepted && exhausted ==> (
      && Pending(u) == [] && u.closed
      && u.clientCloses == t.clientCloses + CloseCalls(t.clientCloseable))
    ensures !accepted && !exhausted ==> (
      && u.pos == t.pos + 1
      && u.closed == t.closed && u.clientCloses == t.clientCloses)
  {
    var left;
    left, more, accepted := OfferWord(t.baseNodeId, t.bits, accept);
    u := t.(bits := left);
    PendingAfterWord(t, left, more);
    exhausted := false;
    if !accepted {
      if u.pos == |u.entries| {
        NothingPending(u);
        u, exhausted := Close(u), true;
      } else {
        u := Load(u);
      }
    }
  }

  /** Offering part of the current word moves those ids from pending to offered. */
  lemma PendingAfterWord(t: Progressor, left: bv64, more: seq<int>)
    requires Valid(t) && Ids(t.baseNodeId, t.bits) == more + Ids(t.baseNodeId, left)
    ensures Valid(t.(bits := left)) && Pending(t) == more + Pending(t.(bits := left))
  {
    var t' := t.(bits := left);
    assert Pending(t') == Ids(t.baseNodeId, left) + EntriesIds(t.entries[t.pos..]);
    Assoc(more, Ids(t.baseNodeId, left), EntriesIds(t.entries[t.pos..]));
  }

  /** An exhausted cursor with an empty word has nothing pending. */
  lemma NothingPending(t: Progressor)
    requires Valid(t) && t.bits == 0 && t.pos == |t.entries|
    ensures Pending(t) == []
  {
    IdsFromZero(t.baseNodeId, 0);
    assert t.entries[t.pos..] == [];
  }

  lemma Assoc(a: seq<int>, b: seq<int>, c: seq<int>)
    ensures a + (b + c) == (a + b) + c
  {
  }

  /** Rejected ids in front of a sequence shift its first accepted position and nothing else. */
  lemma RejectedPrefix(a: seq<int>, b: seq<int>, accept: int -> bool)
    requires Rejected(a, accept)
    ensures FirstAccepted(a + b, accept).Some? <==> FirstAccepted(b, accept).Some?
    ensures FirstAccepted(b, accept).Some? ==> (
      var k := FirstAccepted(b, accept).value;
      && FirstAccepted(a + b, accept).value == |a| + k
      && (a + b)[..|a| + k + 1] == a + b[..k + 1]
      && (a + b)[|a| + k + 1..] == b[k + 1..])
  {
    if FirstAccepted(b, accept).Some? {
      var k := FirstAccepted(b, accept).value;
      RejectedConcat(a, b[..k], accept);
      assert b == b[..k] + [b[k]] + b[k + 1..];
      assert a + b == (a + b[..k]) + [b[k]] + b[k + 1..];
      FirstAcceptedAt(a + b, a + b[..k], b[k], b[k + 1..], accept);
      assert b[..k + 1] == b[..k] + [b[k]];
    } else {
      RejectedConcat(a, b, accept);
    }
  }

  /** The id accepted at the end of `more`, after only rejected ids, is the first accepted pending id. */
  lemma AcceptedIsFirst(p: seq<int>, offered: seq<int>, more: seq<int>, rest: seq<int>, accept: int -> bool)
    requires p == offered + (more + rest)
    requires Rejected(offered, accept)
    requires more != [] && accept(more[|more| - 1]) && Rejected(more[..|more| - 1], accept)
    ensures FirstAccepted(p, accept) == Some(|offered| + |more| - 1)
    ensures p[..|offered| + |more|] == offered + more && p[|offered| + |more|..] == rest
  {
    var x := more[|more| - 1];
    var before := offered + more[..|more| - 1];
    RejectedConcat(offered, more[..|more| - 1], accept);
    assert more == more[..|more| - 1] + [x];
    assert p == before + [x] + rest;
    FirstAcceptedAt(p, before, x, rest, accept);
  }

  /** The ids of `xs` the client accepts, in order: the reference for what repeated `next()` calls yield. */
  function Filter(xs: seq<int>, accept: int -> bool): (r: seq<int>)
    ensures |r| <= |xs|
    ensures forall j :: 0 <= j < |r| ==> accept(r[j]) && r[j] in xs
  {
    if xs == [] then []
    else (if accept(xs[0]) then [xs[0]] else []) + Filter(xs[1..], accept)
  }

  lemma {:induction false} FilterRejectedPrefix(a: seq<int>, b: seq<int>, accept: int -> bool)
    requires Rejected(a, accept)
    ensures Filter(a + b, accept) == Filter(b, accept)
    decreases |a|
  {
    if a != [] {
      assert (a + b)[0] == a[0] && (a + b)[1..] == a[1..] + b;
      assert Rejected(a[1..], accept) by {
        forall j | 0 <= j < |a[1..]| ensures !accept(a[1..][j]) {
          assert a[1..][j] == a[j + 1];
        }
      }
      FilterRejectedPrefix(a[1..], b, accept);
      assert !accept(a[0]);
      assert Filter(a + b, accept) == [] + Filter(a[1..] + b, accept);
    } else {
      assert a + b == b;
    }
  }

  lemma FilterAcceptedHead(x: int, q: seq<int>, accept: int -> bool)
    requires accept(x)
    ensures Filter([x] + q, accept) == [x] + Filter(q, accept)
  {
    assert ([x] + q)[0] == x && ([x] + q)[1..] == q;
  }

  /** A `next()` that returns true yields the first accepted id: ids are consumed in order, none twice. */
  lemma OutcomeFound(p: seq<int>, q: seq<int>, offered: seq<int>, accept: int -> bool)
    requires Outcome(p, q, offered, true, accept)
    ensures p == offered + q && offered != [] && |q| < |p|
    ensures Filter(p, accept) == [offered[|offered| - 1]] + Filter(q, accept)
  {
    var k := FirstAccepted(p, accept).value;
    var before, x := p[..k], p[k];
    assert offered == before + [x];
    assert p == before + ([x] + q);
    FilterRejectedPrefix(before, [x] + q, accept);
    FilterAcceptedHead(x, q, accept);
  }

  /** A `next()` that returns false has offered every pending id and yields nothing. */
  lemma OutcomeNotFound(p: seq<int>, q: seq<int>, offered: seq<int>, accept: int -> bool)
    requires Outcome(p, q, offered, false, accept)
    ensures p == offered + q && Filter(p, accept) == []
  {
    FilterRejectedPrefix(p, [], accept);
    assert p + [] == p;
  }

  /**
   A client calling `next()` until it returns false: every pending id is offered exactly
   once, in order, the accepted ones are yielded in order, and the progressor ends closed.
   */
  method Drain(s: Progressor, accept: int -> bool) returns (t: Progressor, offered: seq<int>, yielded: seq<int>)
    requires Valid(s)
    decreases |Pending(s)|
    ensures Valid(t) && t.entries == s.entries && Pending(t) == [] && t.closed
    ensures t.clientCloseable == s.clientCloseable
    ensures t.clientCloses == s.clientCloses + CloseCalls(s.clientCloseable)
    ensures offered == Pending(s)
    ensures yielded == Filter(Pending(s), accept)
  {
    var u, first, found := Next(s, accept);
    if !found {
      OutcomeNotFound(Pending(s), Pending(u), first, accept);
      return u, first, [];
    }
    OutcomeFound(Pending(s), Pending(u), first, accept);
    var more, rest;
    t, more, rest := Drain(u, accept);
    offered, yielded := first + more, [first[|first| - 1]] + rest;
  }

  /**
   The usual life of a progressor: the client drains it, so `next()` closes it when the
   cursor is exhausted, and then its owner closes it once more. A closeable client has
   its `close()` called twice; nothing is left pending.
   */
  method DrainThenClose(s: Progressor, accept: int -> bool) returns (t: Progressor, yielded: seq<int>)
    requires Valid(s)
    ensures Valid(t) && t.closed && Pending(t) == []
    ensures yielded == Filter(Pending(s), accept)
    ensures t.clientCloses == s.clientCloses + 2 * CloseCalls(s.clientCloseable)
  {
    var drained, offered;
    drained, offered, yielded := Drain(s, accept);
    t := Close(drained);
  }

  /** Keys in strictly ascending order, as the cursor returns them. */
  predicate AscendingRanges(es: seq<Entry>) {
    forall i, j :: 0 <= i < j < |es| ==> es[i].idRange < es[j].idRange
  }

  lemma IncreasingConcat(a: seq<int>, b: seq<int>)
    requires StrictlyIncreasing(a) && StrictlyIncreasing(b)
    requires forall i, j :: 0 <= i < |a| && 0 <= j < |b| ==> a[i] < b[j]
    ensures StrictlyIncreasing(a + b)
  {
  }

  /** Over ascending keys the ids of all entries are strictly increasing and start no lower than the first range. */
  lemma {:induction false} EntriesIdsIncreasing(es: seq<Entry>)
    requires AscendingRanges(es)
    ensures StrictlyIncreasing(EntriesIds(es))
    ensures es != [] ==> forall j :: 0 <= j < |EntriesIds(es)| ==> EntryBase(es[0]) <= EntriesIds(es)[j]
    decreases |es|
  {
    if es != [] {
      var head, tail := Ids(EntryBase(es[0]), es[0].bits), EntriesIds(es[1..]);
      IdsInRange(EntryBase(es[0]), es[0].bits);
      EntriesIdsIncreasing(es[1..]);
      if es[1..] != [] {
        assert es[1..][0] == es[1];
        assert EntryBase(es[0]) + RangeSize <= EntryBase(es[1]);
      }
      IncreasingConcat(head, tail);
    }
  }

  lemma {:induction false} FilterIncreasing(xs: seq<int>, accept: int -> bool)
    requires StrictlyIncreasing(xs)
    ensures StrictlyIncreasing(Filter(xs, accept))
    decreases |xs|
  {
    if xs != [] {
      FilterIncreasing(xs[1..], accept);
      var rest := Filter(xs[1..], accept);
      forall j | 0 <= j < |rest|
        ensures xs[0] < rest[j]
      {
        var m :| 0 <= m < |xs[1..]| && xs[1..][m] == rest[j];
        assert xs[1..][m] == xs[m + 1];
      }
    }
  }

  /**
   With the cursor's keys strictly ascending and ranges as wide as the word, the node ids
   a client is given over the whole scan are strictly increasing.
   */
  lemma ScanIncreasing(entries: seq<Entry>, clientCloseable: bool, accept: int -> bool)
    requires AscendingRanges(entries)
    ensures StrictlyIncreasing(Filter(Pending(Open(entries, clientCloseable)), accept))
  {
    EntriesIdsIncreasing(entries);
    FilterIncreasing(EntriesIds(entries), accept);
  }
}
