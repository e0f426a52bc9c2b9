/**
 * The merging logic of free (malloc.c:350-394) on region maps: the region is marked free,
 * absorbs its successor when that one is free, and is absorbed by its predecessor when that
 * one is free; the survivor, if it is then alone in its block, takes the block with it.
 *
 * The source reads the predecessor through the region's own `prev` link, which split and
 * merge do not keep up to date; PrevTrue is the condition under which that link is sound
 * for the region being freed.
 */
module Release {
  import opened Wrappers
  import opened Layout
  import opened Regions
  import opened Arena

  /** Region x's `prev` names the region before it in its block's chain, if there is one. */
  ghost predicate PrevTrue(rs: map<RegionId, Region>, chains: map<BlockId, seq<RegionId>>, x: RegionId)
  {
    x in rs && rs[x].owner in chains && x in chains[rs[x].owner] &&
    var c := chains[rs[x].owner];
    var i := IndexOf(c, x);
    i > 0 ==> rs[x].prev == Some(c[i - 1])
  }

  /** The regions with h marked free (malloc.c:365). */
  function Marked(rs: map<RegionId, Region>, h: RegionId): map<RegionId, Region>
    requires h in rs
  {
    rs[h := rs[h].(free := true)]
  }

  /** The right-merge test of free (malloc.c:368-370): x has a successor and it is free. */
  predicate NextFree(rs: map<RegionId, Region>, x: RegionId)
    requires x in rs
  {
    rs[x].next.Some? && rs[x].next.value in rs && rs[rs[x].next.value].free
  }

  /** The regions after the right merge of free (malloc.c:370-375). */
  function MergeNext(rs: map<RegionId, Region>, x: RegionId): map<RegionId, Region>
    requires x in rs
  {
    if NextFree(rs, x) then Absorb(rs, x) else rs
  }

  /** The left-merge test of free (malloc.c:377-379): x has a predecessor and it is free. */
  predicate PrevFree(rs: map<RegionId, Region>, x: RegionId)
    requires x in rs
  {
    rs[x].prev.Some? && rs[x].prev.value in rs && rs[rs[x].prev.value].free
  }

  /** What free decides for live region h, read off the regions before the call. */
  datatype Outcome = Outcome(right: bool, left: bool, survivor: RegionId, size: nat, sole: bool)

  /**
   * The outcome of freeing h: whether each merge happens, the region that survives them, its
   * payload (each merge adds the neighbour's payload and one header), and whether the
   * survivor is then the only region of its block.
   */
  function OutcomeOf(rs: map<RegionId, Region>, h: RegionId): Outcome
    requires h in rs
  {
    var r := rs[h];
    var right := NextFree(rs, h);
    var merged := if right then rs[r.next.value].size + r.size + REGION_HEADER else r.size;
    var next := if right then rs[r.next.value].next else r.next;
    if PrevFree(rs, h) then
      var p := rs[r.prev.value];
      Outcome(right, true, r.prev.value, p.size + merged + REGION_HEADER, p.prev.None? && next.None?)
    else
      Outcome(right, false, h, merged, r.prev.None? && next.None?)
  }

  /** The regions free's merges absorb: h's successor for the right merge, h itself for the left one. */
  function Absorbed(rs: map<RegionId, Region>, h: RegionId): set<RegionId>
    requires h in rs
  {
    var o := OutcomeOf(rs, h);
    (if o.right then {rs[h].next.value} else {}) + (if o.left then {h} else {})
  }

  /** Every live region carries the magic tag free checks (malloc.c:356-360). */
  lemma LiveRegionTagged(rs: map<RegionId, Region>, blocks: map<BlockId, Block>, chains: map<BlockId, seq<RegionId>>,
                         x: RegionId)
    requires ArenaOk(rs, blocks, chains) && x in rs
    ensures rs[x].magic == MAGIC_NUMBER
  {
    Locate(rs, blocks, chains, x);
  }

  /** A live region's successor is live, distinct from it and in the same chain. */
  lemma NextLive(rs: map<RegionId, Region>, blocks: map<BlockId, Block>, chains: map<BlockId, seq<RegionId>>,
                 x: RegionId)
    requires ArenaOk(rs, blocks, chains) && x in rs && rs[x].next.Some?
    ensures rs[x].next.value in rs && rs[x].next.value != x
    ensures rs[x].owner in chains && x in chains[rs[x].owner]
    ensures var c := chains[rs[x].owner]; IndexOf(c, x) + 1 < |c| && c[IndexOf(c, x) + 1] == rs[x].next.value
  {
    Locate(rs, blocks, chains, x);
    var b := rs[x].owner;
    var i := IndexOf(chains[b], x);
    AbsorbGuard(rs, b, chains[b], blocks[b].tier, i);
  }

  /** Under PrevTrue, a region's predecessor is live, distinct from it, and links forward to it. */
  lemma PrevLinks(rs: map<RegionId, Region>, blocks: map<BlockId, Block>, chains: map<BlockId, seq<RegionId>>,
                  x: RegionId)
    requires ArenaOk(rs, blocks, chains) && PrevTrue(rs, chains, x) && rs[x].prev.Some?
    ensures rs[x].prev.value in rs && rs[x].prev.value != x && rs[rs[x].prev.value].next == Some(x)
    ensures rs[rs[x].prev.value].owner == rs[x].owner
    ensures rs[x].next.Some? ==> rs[x].prev.value != rs[x].next.value
  {
    Locate(rs, blocks, chains, x);
    var b := rs[x].owner;
    var c := chains[b];
    var i := IndexOf(c, x);
    assert i > 0;
    ChainMember(rs, b, c, blocks[b].tier, i - 1);
    if rs[x].next.Some? {
      NextLive(rs, blocks, chains, x);
    }
  }

  /**
   * The address free hands to delete_block for the region it releases, as an offset inside
   * that region's block: the region's header address minus one block header
   * (malloc.c:384-385, 390-391).
   */
  function DeleteAddress(r: Region): int
  {
    r.at - BLOCK_HEADER
  }

  /**
   * For the only region of a block, the one case in which free calls delete_block, that
   * address is 40 bytes into the block, not the block itself. The `next` and `previous` words
   * delete_block reads there lie between the block header and the first region header, where
   * none of the block's region headers starts.
   */
  lemma DeleteAddressInGap(rs: map<RegionId, Region>, blocks: map<BlockId, Block>, chains: map<BlockId, seq<RegionId>>,
                           x: RegionId)
    requires ArenaOk(rs, blocks, chains) && x in rs && rs[x].prev.None? && rs[x].next.None?
    ensures DeleteAddress(rs[x]) == FIRST_REGION_AT - BLOCK_HEADER && DeleteAddress(rs[x]) != 0
    ensures BLOCK_HEADER <= DeleteAddress(rs[x]) && DeleteAddress(rs[x]) + 16 <= FIRST_REGION_AT
    ensures forall y | y in rs && rs[y].owner == rs[x].owner :: rs[y].at >= FIRST_REGION_AT
  {
    SoleChain(rs, blocks, chains, x);
    Locate(rs, blocks, chains, x);
    var b := rs[x].owner;
    assert chains[b][0] == x;
    forall y | y in rs && rs[y].owner == b ensures rs[y].at >= FIRST_REGION_AT {
      Locate(rs, blocks, chains, y);
      HeadersFromFirst(rs, b, chains[b], blocks[b].tier, IndexOf(chains[b], y));
    }
  }

  /** A region with neither neighbour is the whole chain of its block, and that block's first region. */
  lemma SoleChain(rs: map<RegionId, Region>, blocks: map<BlockId, Block>, chains: map<BlockId, seq<RegionId>>,
                  x: RegionId)
    requires ArenaOk(rs, blocks, chains) && x in rs && rs[x].prev.None? && rs[x].next.None?
    ensures rs[x].owner in blocks && chains[rs[x].owner] == [x] && blocks[rs[x].owner].first == x
  {
    Locate(rs, blocks, chains, x);
    var b := rs[x].owner;
    var c := chains[b];
    var i := IndexOf(c, x);
    assert i == 0 && |c| == 1;
    assert c == [x];
  }

  /**
   * The right merge leaves x where it was in its chain, with its `prev` untouched, so PrevTrue
   * survives it.
   */
  lemma MergeNextKeepsPrev(rs: map<RegionId, Region>, blocks: map<BlockId, Block>,
                           chains: map<BlockId, seq<RegionId>>, x: RegionId)
    requires ArenaOk(rs, blocks, chains) && PrevTrue(rs, chains, x) && rs[x].next.Some?
    ensures rs[x].next.value in rs
    ensures var c := chains[rs[x].owner]; var i := IndexOf(c, x);
      i + 1 < |c| && PrevTrue(Absorb(rs, x), chains[rs[x].owner := RemoveAt(c, i + 1)], x)
  {
    NextLive(rs, blocks, chains, x);
    Locate(rs, blocks, chains, x);
    var b := rs[x].owner;
    var c := chains[b];
    var i := IndexOf(c, x);
    var d := RemoveAt(c, i + 1);
    AbsorbKeepsChain(rs, b, c, blocks[b].tier, i);
    RemoveAtAt(c, i + 1, i);
    assert d[i] == x;
    IndexOfAt(d, i);
    if i > 0 {
      RemoveAtAt(c, i + 1, i - 1);
    }
  }

  /** In a chain without repeats, the position of the element at j is j. */
  lemma IndexOfAt(c: seq<RegionId>, j: nat)
    requires j < |c| && forall a, b | 0 <= a < b < |c| :: c[a] != c[b]
    ensures IndexOf(c, c[j]) == j
  {
    var k := IndexOf(c, c[j]);
    assert c[k] == c[j];
  }

  /**
   * free's merges, step by step as the source does them, have the outcome OutcomeOf states:
   * the survivor is free, its payload is the merged sum, nothing else in the arena changes,
   * exactly the absorbed regions are gone, and the survivor has no neighbour exactly when the
   * outcome says it is alone.
   */
  lemma ReleaseMerges(rs: map<RegionId, Region>, blocks: map<BlockId, Block>, chains: map<BlockId, seq<RegionId>>,
                      h: RegionId)
    requires ArenaOk(rs, blocks, chains) && PrevTrue(rs, chains, h)
    ensures var m2 := MergeNext(Marked(rs, h), h);
      NextFree(Marked(rs, h), h) == OutcomeOf(rs, h).right &&
      h in m2 && m2[h].prev == rs[h].prev && PrevFree(m2, h) == OutcomeOf(rs, h).left &&
      (PrevFree(m2, h) ==> m2[h].prev.value in m2 && m2[h].prev.value != h && m2[m2[h].prev.value].next == Some(h))
    ensures var o := OutcomeOf(rs, h);
      var m2 := MergeNext(Marked(rs, h), h);
      var m3 := if o.left then Absorb(m2, rs[h].prev.value) else m2;
      o.survivor in m3 && m3[o.survivor].free && m3[o.survivor].size == o.size && m3[o.survivor].owner == rs[h].owner &&
      (o.sole <==> m3[o.survivor].prev.None? && m3[o.survivor].next.None?) &&
      (forall y | y in m3 && y != o.survivor :: y in rs && m3[y] == rs[y]) &&
      m3.Keys == rs.Keys - Absorbed(rs, h)
  {
    var r := rs[h];
    var m1 := Marked(rs, h);
    if r.next.Some? {
      NextLive(rs, blocks, chains, h);
      AbsorbRecords(m1, h, r.next.value);
    }
    var m2 := MergeNext(m1, h);
    if r.prev.Some? {
      PrevLinks(rs, blocks, chains, h);
      var p := r.prev.value;
      assert m2[p] == rs[p];
      if PrevFree(m2, h) {
        AbsorbRecords(m2, p, h);
      }
    }
  }
}
