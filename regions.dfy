/**
 * Regions and the address-ordered chain each block keeps of them (malloc.c:34-40),
 * together with the two in-place rewrites the engine applies to a chain: splitting a
 * region (split_region, malloc.c:153-166) and absorbing a region's successor (the two
 * merges of free, malloc.c:370-382).
 *
 * A chain is given as the sequence of region ids in address order. The links stored in
 * the regions are explicit: `next` always agrees with the chain, `prev` is only known to
 * be absent exactly on the first region, because the source never repairs it.
 */
module Regions {
  import opened Wrappers
  import opened Layout

  type RegionId = nat
  type BlockId = nat

  /**
   * One region header plus its payload. `at` is the header's offset inside its block's
   * mapping (the region's address) and `data` the payload bytes.
   */
  datatype Region = Region(
    free: bool,
    size: nat,
    next: Option<RegionId>,
    prev: Option<RegionId>,
    magic: int,
    owner: BlockId,
    at: nat,
    data: seq<bv8>)

  /** Offset just past a region's payload: where a contiguous successor's header starts. */
  function End(r: Region): nat
  {
    r.at + REGION_HEADER + r.size
  }

  /** Offset just past a well-formed chain of a block of tier t. */
  function ChainEnd(t: Tier): nat
  {
    FIRST_REGION_AT + BlockSize(t) - BLOCK_HEADER
  }

  /**
   * The bytes left inside a merged region where the absorbed region's header used to be.
   * Their layout (pointers, padding) is not modelled; no contract depends on their value.
   */
  function StaleHeader(): (h: seq<bv8>)
    ensures |h| == REGION_HEADER
  {
    Zeros(REGION_HEADER)
  }

  function Zeros(n: nat): (z: seq<bv8>)
    ensures |z| == n && forall i | 0 <= i < n :: z[i] == 0
  {
    seq(n, _ => 0)
  }

  function NextIn(c: seq<RegionId>, i: nat): Option<RegionId>
    requires i < |c|
  {
    if i + 1 < |c| then Some(c[i + 1]) else None
  }

  /** The header of the region at position i of a chain of block b. */
  predicate HeaderOk(r: Region, b: BlockId, i: nat, next: Option<RegionId>)
  {
    r.owner == b && r.magic == MAGIC_NUMBER && |r.data| == r.size &&
    r.next == next && (r.prev.None? <==> i == 0)
  }

  /** Every id of c is a live region of block b, linked forward in chain order, without repeats. */
  ghost predicate Linked(rs: map<RegionId, Region>, b: BlockId, c: seq<RegionId>)
  {
    |c| >= 1 &&
    (forall i | 0 <= i < |c| :: c[i] in rs && HeaderOk(rs[c[i]], b, i, NextIn(c, i))) &&
    (forall i, j | 0 <= i < j < |c| :: c[i] != c[j])
  }

  /** Each region's header starts where its predecessor's payload ends. */
  ghost predicate Contiguous(rs: map<RegionId, Region>, c: seq<RegionId>)
    requires forall i | 0 <= i < |c| :: c[i] in rs
  {
    forall i | 0 < i < |c| :: rs[c[i]].at == End(rs[c[i - 1]])
  }

  /** The chain of a block of tier t: linked, contiguous, and covering the block's payload. */
  ghost predicate ChainOk(rs: map<RegionId, Region>, b: BlockId, c: seq<RegionId>, t: Tier)
  {
    Linked(rs, b, c) && Contiguous(rs, c) &&
    rs[c[0]].at == FIRST_REGION_AT && End(rs[c[|c| - 1]]) == ChainEnd(t)
  }

  /**
   * No region header of a well-formed chain starts before the first one: the bytes between
   * the block header and FIRST_REGION_AT belong to no region and are never written.
   */
  lemma {:induction false} HeadersFromFirst(rs: map<RegionId, Region>, b: BlockId, c: seq<RegionId>, t: Tier, k: nat)
    requires ChainOk(rs, b, c, t) && k < |c|
    ensures rs[c[k]].at >= FIRST_REGION_AT
  {
    if k > 0 {
      HeadersFromFirst(rs, b, c, t, k - 1);
    }
  }

  /** The forward links of a chain, all the fit loops follow. */
  ghost predicate Threaded(rs: map<RegionId, Region>, c: seq<RegionId>)
  {
    |c| >= 1 && forall i | 0 <= i < |c| :: c[i] in rs && rs[c[i]].next == NextIn(c, i)
  }

  lemma ChainThreaded(rs: map<RegionId, Region>, b: BlockId, c: seq<RegionId>, t: Tier)
    requires ChainOk(rs, b, c, t)
    ensures Threaded(rs, c)
  {
  }

  /** Every non-first region's `prev` names its true predecessor. */
  ghost predicate PrevSound(rs: map<RegionId, Region>, c: seq<RegionId>)
    requires forall i | 0 <= i < |c| :: c[i] in rs
  {
    forall i | 0 < i < |c| :: rs[c[i]].prev == Some(c[i - 1])
  }

  /** Header plus payload summed over a chain. */
  function Span(rs: map<RegionId, Region>, c: seq<RegionId>): nat
    requires forall i | 0 <= i < |c| :: c[i] in rs
  {
    if c == [] then 0 else REGION_HEADER + rs[c[0]].size + Span(rs, c[1..])
  }

  /** In a contiguous chain, the summed spans telescope from the first header to the last end. */
  lemma {:induction false} SpanTelescopes(rs: map<RegionId, Region>, c: seq<RegionId>)
    requires |c| >= 1
    requires forall i | 0 <= i < |c| :: c[i] in rs
    requires Contiguous(rs, c)
    ensures rs[c[0]].at + Span(rs, c) == End(rs[c[|c| - 1]])
  {
    if |c| > 1 {
      var d := c[1..];
      assert forall i | 0 < i < |d| :: d[i] == c[i + 1] && d[i - 1] == c[i];
      SpanTelescopes(rs, d);
      assert rs[c[1]].at == End(rs[c[0]]);
    }
  }

  /** A block's chain invariant: header plus payload over its regions is the block's payload (malloc.c:168-185). */
  lemma SpanIsBlockPayload(rs: map<RegionId, Region>, b: BlockId, c: seq<RegionId>, t: Tier)
    requires ChainOk(rs, b, c, t)
    ensures Span(rs, c) == BlockSize(t) - BLOCK_HEADER
  {
    SpanTelescopes(rs, c);
  }

  /** A chain of one region spans the block: its payload is the whole first payload. */
  lemma SoleRegionSize(rs: map<RegionId, Region>, b: BlockId, x: RegionId, t: Tier)
    requires ChainOk(rs, b, [x], t)
    ensures rs[x].size == FirstPayload(t)
    ensures TierOfSpan(rs[x].size) == Some(t)
  {
  }

  /** The single used, neighbourless region a fresh block is carved into (malloc.c:168-185). */
  function FirstRegion(b: BlockId, t: Tier): (r: Region)
  {
    Region(false, FirstPayload(t), None, None, MAGIC_NUMBER, b, FIRST_REGION_AT, Zeros(FirstPayload(t)))
  }

  lemma FirstRegionChain(rs: map<RegionId, Region>, x: RegionId, b: BlockId, t: Tier)
    requires x in rs && rs[x] == FirstRegion(b, t)
    ensures ChainOk(rs, b, [x], t) && PrevSound(rs, [x])
    ensures Span(rs, [x]) == BlockSize(t) - BLOCK_HEADER
  {
  }

  // ---------------------------------------------------------------- split

  /**
   * split_region(x, n): x keeps the first n payload bytes; a new free region nid with the
   * magic tag starts right after them, takes x's old `next` and points back at x. The old
   * successor's `prev` is left as it was.
   */
  function Split(rs: map<RegionId, Region>, x: RegionId, n: nat, nid: RegionId): map<RegionId, Region>
    requires x in rs && n + REGION_HEADER <= rs[x].size && |rs[x].data| == rs[x].size
  {
    var r := rs[x];
    var tail := Region(true, r.size - n - REGION_HEADER, r.next, Some(x), MAGIC_NUMBER,
                       r.owner, r.at + REGION_HEADER + n, r.data[n + REGION_HEADER..]);
    rs[x := r.(size := n, next := Some(nid), data := r.data[..n])][nid := tail]
  }

  function InsertAfter(c: seq<RegionId>, i: nat, nid: RegionId): (d: seq<RegionId>)
    requires i < |c|
    ensures |d| == |c| + 1
  {
    c[..i + 1] + [nid] + c[i + 1..]
  }

  lemma InsertAfterAt(c: seq<RegionId>, i: nat, nid: RegionId, j: nat)
    requires i < |c| && j < |c| + 1
    ensures InsertAfter(c, i, nid)[j] == if j <= i then c[j] else if j == i + 1 then nid else c[j - 1]
  {
  }

  /** The records after a split: x shortened, the new tail region, everything else as before. */
  lemma SplitRecords(rs: map<RegionId, Region>, x: RegionId, n: nat, nid: RegionId)
    requires x in rs && n + REGION_HEADER <= rs[x].size && |rs[x].data| == rs[x].size && nid !in rs
    ensures var rs' := Split(rs, x, n, nid);
      rs'.Keys == rs.Keys + {nid} &&
      (forall y | y in rs && y != x :: rs'[y] == rs[y]) &&
      rs'[x] == rs[x].(size := n, next := Some(nid), data := rs[x].data[..n]) &&
      rs'[nid] == Region(true, rs[x].size - n - REGION_HEADER, rs[x].next, Some(x), MAGIC_NUMBER,
                         rs[x].owner, rs[x].at + REGION_HEADER + n, rs[x].data[n + REGION_HEADER..])
  {
  }

  lemma SplitLinked(rs: map<RegionId, Region>, b: BlockId, c: seq<RegionId>, i: nat, n: nat, nid: RegionId)
    requires Linked(rs, b, c) && i < |c|
    requires n + REGION_HEADER <= rs[c[i]].size && nid !in rs
    ensures Linked(Split(rs, c[i], n, nid), b, InsertAfter(c, i, nid))
  {
    var x := c[i];
    var rs' := Split(rs, x, n, nid);
    var d := InsertAfter(c, i, nid);
    SplitRecords(rs, x, n, nid);
    forall j | 0 <= j < |d|
      ensures d[j] in rs' && HeaderOk(rs'[d[j]], b, j, NextIn(d, j))
    {
      InsertAfterAt(c, i, nid, j);
      if j + 1 < |d| { InsertAfterAt(c, i, nid, j + 1); }
      if j < i {
        assert HeaderOk(rs[c[j]], b, j, NextIn(c, j));
      } else if j == i {
        assert HeaderOk(rs[c[j]], b, j, NextIn(c, j));
      } else if j == i + 1 {
        assert HeaderOk(rs[c[i]], b, i, NextIn(c, i));
      } else {
        assert HeaderOk(rs[c[j - 1]], b, j - 1, NextIn(c, j - 1));
      }
    }
    forall j, k | 0 <= j < k < |d| ensures d[j] != d[k] {
      InsertAfterAt(c, i, nid, j);
      InsertAfterAt(c, i, nid, k);
    }
  }

  lemma SplitContiguous(rs: map<RegionId, Region>, b: BlockId, c: seq<RegionId>, i: nat, n: nat, nid: RegionId)
    requires Linked(rs, b, c) && Contiguous(rs, c) && i < |c|
    requires n + REGION_HEADER <= rs[c[i]].size && nid !in rs
    ensures Linked(Split(rs, c[i], n, nid), b, InsertAfter(c, i, nid))
    ensures Contiguous(Split(rs, c[i], n, nid), InsertAfter(c, i, nid))
  {
    var x := c[i];
    var rs' := Split(rs, x, n, nid);
    var d := InsertAfter(c, i, nid);
    SplitRecords(rs, x, n, nid);
    SplitLinked(rs, b, c, i, n, nid);
    forall j | 0 < j < |d| ensures rs'[d[j]].at == End(rs'[d[j - 1]]) {
      InsertAfterAt(c, i, nid, j);
      InsertAfterAt(c, i, nid, j - 1);
      if j == i + 2 {
        assert rs[c[i + 1]].at == End(rs[c[i]]);
      } else if j > i + 2 {
        assert rs[c[j - 1]].at == End(rs[c[j - 2]]);
      } else if j <= i {
        assert rs[c[j]].at == End(rs[c[j - 1]]);
      }
    }
  }

  /**
   * What a split does to the chain: x's payload becomes n, it is immediately followed by a
   * new free region of payload old - n - 40, the pair spans what x spanned, every other
   * region is untouched, and the chain stays well-formed.
   */
  lemma SplitKeepsChain(rs: map<RegionId, Region>, b: BlockId, c: seq<RegionId>, t: Tier,
                        i: nat, n: nat, nid: RegionId)
    requires ChainOk(rs, b, c, t) && i < |c|
    requires n + REGION_HEADER <= rs[c[i]].size && nid !in rs
    ensures var rs' := Split(rs, c[i], n, nid);
      ChainOk(rs', b, InsertAfter(c, i, nid), t) &&
      rs'.Keys == rs.Keys + {nid} &&
      (forall y | y in rs && y != c[i] :: rs'[y] == rs[y]) &&
      rs'[c[i]].size == n && rs'[c[i]].next == Some(nid) && rs'[c[i]].free == rs[c[i]].free &&
      rs'[nid].free && rs'[nid].size == rs[c[i]].size - n - REGION_HEADER &&
      rs'[nid].prev == Some(c[i]) && rs'[nid].magic == MAGIC_NUMBER &&
      rs'[nid].at == End(rs'[c[i]]) &&
      Span(rs', [c[i], nid]) == Span(rs, [c[i]])
  {
    var x := c[i];
    var rs' := Split(rs, x, n, nid);
    SplitRecords(rs, x, n, nid);
    SplitChainOk(rs, b, c, t, i, n, nid);
    assert Span(rs', [nid]) == REGION_HEADER + rs'[nid].size + Span(rs', []);
    assert Span(rs', [x, nid]) == REGION_HEADER + n + Span(rs', [nid]);
  }

  lemma SplitChainOk(rs: map<RegionId, Region>, b: BlockId, c: seq<RegionId>, t: Tier,
                     i: nat, n: nat, nid: RegionId)
    requires ChainOk(rs, b, c, t) && i < |c|
    requires n + REGION_HEADER <= rs[c[i]].size && nid !in rs
    ensures ChainOk(Split(rs, c[i], n, nid), b, InsertAfter(c, i, nid), t)
  {
    var d := InsertAfter(c, i, nid);
    SplitRecords(rs, c[i], n, nid);
    SplitContiguous(rs, b, c, i, n, nid);
    InsertAfterAt(c, i, nid, 0);
    InsertAfterAt(c, i, nid, |d| - 1);
  }

  /**
   * The link the source forgets: when x had a successor, a split leaves that successor's
   * `prev` on x instead of the new region, so a chain whose back links were sound stops
   * being sound. Splitting the last region keeps them sound.
   */
  lemma SplitStalesPrev(rs: map<RegionId, Region>, b: BlockId, c: seq<RegionId>, t: Tier,
                        i: nat, n: nat, nid: RegionId)
    requires ChainOk(rs, b, c, t) && i < |c| && PrevSound(rs, c)
    requires n + REGION_HEADER <= rs[c[i]].size && nid !in rs
    ensures var rs' := Split(rs, c[i], n, nid);
      var d := InsertAfter(c, i, nid);
      (forall j | 0 <= j < |d| :: d[j] in rs') &&
      (PrevSound(rs', d) <==> i == |c| - 1)
  {
    var rs' := Split(rs, c[i], n, nid);
    var d := InsertAfter(c, i, nid);
    SplitKeepsChain(rs, b, c, t, i, n, nid);
    if i < |c| - 1 {
      InsertAfterAt(c, i, nid, i + 2);
      InsertAfterAt(c, i, nid, i + 1);
      assert rs'[d[i + 2]].prev == Some(c[i]) != Some(d[i + 1]);
    } else {
      forall j | 0 < j < |d| ensures rs'[d[j]].prev == Some(d[j - 1]) {
        InsertAfterAt(c, i, nid, j);
        InsertAfterAt(c, i, nid, j - 1);
      }
    }
  }

  // ---------------------------------------------------------------- merge

  /**
   * x absorbs its successor y: its payload grows by y's header and payload, it takes y's
   * `next`, and y's record is gone. y's successor keeps pointing back at y. This is both
   * the right merge (x = the freed region) and the left merge (x = its predecessor).
   */
  function Absorb(rs: map<RegionId, Region>, x: RegionId): map<RegionId, Region>
    requires x in rs && rs[x].next.Some? && rs[x].next.value in rs
  {
    var r := rs[x];
    var y := r.next.value;
    var s := rs[y];
    rs[x := r.(size := s.size + r.size + REGION_HEADER, next := s.next,
               data := r.data + StaleHeader() + s.data)] - {y}
  }

  function RemoveAt(c: seq<RegionId>, k: nat): (d: seq<RegionId>)
    requires k < |c|
    ensures |d| == |c| - 1
  {
    c[..k] + c[k + 1..]
  }

  lemma RemoveAtAt(c: seq<RegionId>, k: nat, j: nat)
    requires k < |c| && j < |c| - 1
    ensures RemoveAt(c, k)[j] == if j < k then c[j] else c[j + 1]
  {
  }

  /** The records after x absorbs y: x grown, y gone, everything else as before. */
  lemma AbsorbRecords(rs: map<RegionId, Region>, x: RegionId, y: RegionId)
    requires x in rs && rs[x].next == Some(y) && y in rs && y != x
    ensures var rs' := Absorb(rs, x);
      rs'.Keys == rs.Keys - {y} &&
      (forall z | z in rs' && z != x :: rs'[z] == rs[z]) &&
      rs'[x] == rs[x].(size := rs[y].size + rs[x].size + REGION_HEADER, next := rs[y].next,
                       data := rs[x].data + StaleHeader() + rs[y].data)
  {
  }

  lemma AbsorbLinkedAt(rs: map<RegionId, Region>, b: BlockId, c: seq<RegionId>, i: nat, j: nat)
    requires Linked(rs, b, c) && i + 1 < |c| && j < |c| - 1
    requires rs[c[i]].next == Some(c[i + 1])
    ensures var d := RemoveAt(c, i + 1);
      d[j] in Absorb(rs, c[i]) && HeaderOk(Absorb(rs, c[i])[d[j]], b, j, NextIn(d, j))
  {
    var d := RemoveAt(c, i + 1);
    AbsorbRecords(rs, c[i], c[i + 1]);
    RemoveAtAt(c, i + 1, j);
    if j + 1 < |d| { RemoveAtAt(c, i + 1, j + 1); }
    if j < i {
      assert HeaderOk(rs[c[j]], b, j, NextIn(c, j));
    } else if j == i {
      assert HeaderOk(rs[c[i]], b, i, NextIn(c, i));
      assert HeaderOk(rs[c[i + 1]], b, i + 1, NextIn(c, i + 1));
    } else {
      assert HeaderOk(rs[c[j + 1]], b, j + 1, NextIn(c, j + 1));
    }
  }

  lemma AbsorbLinked(rs: map<RegionId, Region>, b: BlockId, c: seq<RegionId>, i: nat)
    requires Linked(rs, b, c) && i + 1 < |c|
    ensures rs[c[i]].next == Some(c[i + 1])
    ensures Linked(Absorb(rs, c[i]), b, RemoveAt(c, i + 1))
  {
    var x := c[i];
    var y := c[i + 1];
    assert HeaderOk(rs[x], b, i, NextIn(c, i));
    var rs' := Absorb(rs, x);
    var d := RemoveAt(c, i + 1);
    AbsorbRecords(rs, x, y);
    forall j | 0 <= j < |d|
      ensures d[j] in rs' && HeaderOk(rs'[d[j]], b, j, NextIn(d, j))
    {
      AbsorbLinkedAt(rs, b, c, i, j);
    }
    forall j, k | 0 <= j < k < |d| ensures d[j] != d[k] {
      RemoveAtAt(c, i + 1, j);
      RemoveAtAt(c, i + 1, k);
    }
  }

  lemma AbsorbContiguous(rs: map<RegionId, Region>, b: BlockId, c: seq<RegionId>, i: nat)
    requires Linked(rs, b, c) && Contiguous(rs, c) && i + 1 < |c|
    ensures rs[c[i]].next == Some(c[i + 1])
    ensures Linked(Absorb(rs, c[i]), b, RemoveAt(c, i + 1))
    ensures Contiguous(Absorb(rs, c[i]), RemoveAt(c, i + 1))
  {
    var x := c[i];
    var y := c[i + 1];
    AbsorbLinked(rs, b, c, i);
    var rs' := Absorb(rs, x);
    var d := RemoveAt(c, i + 1);
    AbsorbRecords(rs, x, y);
    forall j | 0 < j < |d| ensures rs'[d[j]].at == End(rs'[d[j - 1]]) {
      RemoveAtAt(c, i + 1, j);
      RemoveAtAt(c, i + 1, j - 1);
      if j == i + 1 {
        assert rs[c[i + 2]].at == End(rs[c[i + 1]]);
        assert rs[c[i + 1]].at == End(rs[c[i]]);
      } else if j < i + 1 {
        assert rs[c[j]].at == End(rs[c[j - 1]]);
      } else {
        assert rs[c[j + 1]].at == End(rs[c[j]]);
      }
    }
  }

  lemma AbsorbChainOk(rs: map<RegionId, Region>, b: BlockId, c: seq<RegionId>, t: Tier, i: nat)
    requires ChainOk(rs, b, c, t) && i + 1 < |c|
    ensures rs[c[i]].next == Some(c[i + 1])
    ensures ChainOk(Absorb(rs, c[i]), b, RemoveAt(c, i + 1), t)
  {
    var x := c[i];
    var y := c[i + 1];
    AbsorbContiguous(rs, b, c, i);
    AbsorbRecords(rs, x, y);
    var rs' := Absorb(rs, x);
    var d := RemoveAt(c, i + 1);
    assert rs'[d[0]].at == FIRST_REGION_AT by {
      RemoveAtAt(c, i + 1, 0);
      if i > 0 {
        assert c[0] != x && c[0] != y;
      }
    }
    assert End(rs'[d[|d| - 1]]) == ChainEnd(t) by {
      RemoveAtAt(c, i + 1, |d| - 1);
      if i + 2 == |c| {
        assert rs[y].at == End(rs[x]);
      } else {
        assert c[|c| - 1] != x && c[|c| - 1] != y;
      }
    }
  }

  /**
   * What a merge does to the chain: x's payload grows by its successor's header plus
   * payload, x keeps its address, the successor leaves the arena and the chain, every
   * other region is untouched, and the chain stays well-formed.
   */
  lemma AbsorbKeepsChain(rs: map<RegionId, Region>, b: BlockId, c: seq<RegionId>, t: Tier, i: nat)
    requires ChainOk(rs, b, c, t) && i + 1 < |c|
    ensures rs[c[i]].next == Some(c[i + 1])
    ensures var rs' := Absorb(rs, c[i]);
      ChainOk(rs', b, RemoveAt(c, i + 1), t) &&
      rs'.Keys == rs.Keys - {c[i + 1]} &&
      (forall y | y in rs' && y != c[i] :: rs'[y] == rs[y]) &&
      rs'[c[i]].size == rs[c[i]].size + REGION_HEADER + rs[c[i + 1]].size &&
      rs'[c[i]].at == rs[c[i]].at && rs'[c[i]].free == rs[c[i]].free &&
      rs'[c[i]].prev == rs[c[i]].prev &&
      rs'[c[i]].data[..rs[c[i]].size] == rs[c[i]].data &&
      rs'[c[i]].data[rs[c[i]].size + REGION_HEADER..] == rs[c[i + 1]].data
  {
    AbsorbChainOk(rs, b, c, t, i);
    AbsorbRecords(rs, c[i], c[i + 1]);
    assert HeaderOk(rs[c[i]], b, i, NextIn(c, i));
    ConcatSlices(rs[c[i]].data, StaleHeader(), rs[c[i + 1]].data);
  }

  lemma ConcatSlices(a: seq<bv8>, h: seq<bv8>, z: seq<bv8>)
    ensures (a + h + z)[..|a|] == a && (a + h + z)[|a| + |h|..] == z
  {
  }

  /**
   * The second link the source forgets: after a merge, the region that followed the absorbed
   * one still names the absorbed region, which is no longer live; back links stay sound
   * exactly when the absorbed region was last.
   */
  lemma AbsorbStalesPrev(rs: map<RegionId, Region>, b: BlockId, c: seq<RegionId>, t: Tier, i: nat)
    requires ChainOk(rs, b, c, t) && i + 1 < |c| && PrevSound(rs, c)
    ensures rs[c[i]].next == Some(c[i + 1])
    ensures var rs' := Absorb(rs, c[i]);
      var d := RemoveAt(c, i + 1);
      (forall j | 0 <= j < |d| :: d[j] in rs') &&
      (i + 2 < |c| ==> rs'[c[i + 2]].prev == Some(c[i + 1]) && c[i + 1] !in rs') &&
      (PrevSound(rs', d) <==> i + 2 == |c|)
  {
    var rs' := Absorb(rs, c[i]);
    var d := RemoveAt(c, i + 1);
    AbsorbKeepsChain(rs, b, c, t, i);
    if i + 2 < |c| {
      RemoveAtAt(c, i + 1, i + 1);
      RemoveAtAt(c, i + 1, i);
      assert rs'[d[i + 1]].prev == Some(c[i + 1]) != Some(d[i]);
    } else {
      forall j | 0 < j < |d| ensures rs'[d[j]].prev == Some(d[j - 1]) {
        RemoveAtAt(c, i + 1, j);
        RemoveAtAt(c, i + 1, j - 1);
      }
    }
  }

  /** Same header fields and an intact payload length: what marking and byte writes preserve. */
  predicate SameLayout(r: Region, r': Region)
  {
    r'.size == r.size && r'.next == r.next && r'.prev == r.prev && r'.magic == r.magic &&
    r'.owner == r.owner && r'.at == r.at && |r'.data| == r'.size
  }

  /** Rewriting a region's free flag or payload bytes touches nothing the chain invariant speaks of. */
  lemma RewriteKeepsChain(rs: map<RegionId, Region>, b: BlockId, c: seq<RegionId>, t: Tier, x: RegionId, r': Region)
    requires ChainOk(rs, b, c, t) && x in rs && SameLayout(rs[x], r')
    ensures ChainOk(rs[x := r'], b, c, t)
    ensures forall i | 0 <= i < |c| :: c[i] in rs[x := r']
    ensures PrevSound(rs, c) ==> PrevSound(rs[x := r'], c)
  {
    var rs' := rs[x := r'];
    assert forall i | 0 <= i < |c| :: SameLayout(rs[c[i]], rs'[c[i]]);
  }

  /** A chain only depends on the records of its own ids. */
  lemma ChainFrame(rs: map<RegionId, Region>, rs': map<RegionId, Region>, b: BlockId, c: seq<RegionId>, t: Tier)
    requires ChainOk(rs, b, c, t)
    requires forall i | 0 <= i < |c| :: c[i] in rs' && rs'[c[i]] == rs[c[i]]
    ensures ChainOk(rs', b, c, t)
  {
  }
}
