/**
 * The bookkeeping around the arena: the three tier lists against the block records and the
 * tier counters (malloc.c:44-57), and the supply of fresh identities. These are stated on
 * values, so an update that leaves the lists alone leaves these facts literally unchanged.
 */
module Lists {
  import opened Wrappers
  import opened Layout
  import opened Regions
  import opened Tiers
  import opened Arena

  function ListOf(t: Tier, little: seq<BlockId>, mid: seq<BlockId>, large: seq<BlockId>): seq<BlockId>
  {
    match t
    case Little => little
    case Mid => mid
    case Large => large
  }

  /**
   * A tier list holds distinct live blocks of that tier, and its counter lies between the
   * list's length (the counter also counts blocks whose mapping failed) and the tier's cap.
   */
  ghost predicate ListOk(blocks: map<BlockId, Block>, l: seq<BlockId>, t: Tier, count: int)
  {
    Distinct(l) &&
    (forall i | 0 <= i < |l| :: l[i] in blocks && blocks[l[i]].tier == t) &&
    |l| <= count <= MaxBlocks(t)
  }

  /** The three lists are sound and between them hold every live block. */
  ghost predicate ListsOk(blocks: map<BlockId, Block>, little: seq<BlockId>, mid: seq<BlockId>, large: seq<BlockId>,
                          cl: int, cm: int, cg: int)
  {
    ListOk(blocks, little, Little, cl) && ListOk(blocks, mid, Mid, cm) && ListOk(blocks, large, Large, cg) &&
    forall b | b in blocks :: b in ListOf(blocks[b].tier, little, mid, large)
  }

  /** Every live identity lies below the next fresh one, and every payload is as long as its size. */
  ghost predicate IdsOk(rs: map<RegionId, Region>, blocks: map<BlockId, Block>, nextRegion: nat, nextBlock: nat)
  {
    (forall x | x in rs :: x < nextRegion && |rs[x].data| == rs[x].size) &&
    (forall b | b in blocks :: b < nextBlock)
  }

  /** Tier u's list after block b was appended to tier t's list. */
  function Grow(u: Tier, t: Tier, l: seq<BlockId>, b: BlockId): seq<BlockId>
  {
    if u == t then l + [b] else l
  }

  /** Tier u's counter after tier t's counter moved by d. */
  function Bump(u: Tier, t: Tier, c: int, d: int): int
  {
    if u == t then c + d else c
  }

  /** Tier u's list after the block at position i of tier t's list was unlinked. */
  function Shrink(u: Tier, t: Tier, l: seq<BlockId>, i: nat): seq<BlockId>
    requires u == t ==> i < |l|
  {
    if u == t then Unlink(l, i) else l
  }

  lemma ListGrow(blocks: map<BlockId, Block>, l: seq<BlockId>, u: Tier, count: int, t: Tier, b: BlockId, blk: Block)
    requires ListOk(blocks, l, u, count) && b !in blocks && blk.tier == t
    requires u == t ==> |l| < count
    ensures ListOk(blocks[b := blk], Grow(u, t, l, b), u, count)
  {
    if u == t {
      var g := l + [b];
      assert forall i | 0 <= i < |l| :: g[i] == l[i];
    }
  }

  /**
   * A fresh block of tier t appended to its list keeps the lists sound, provided the tier's
   * counter, already bumped, exceeds the list's old length.
   */
  lemma ListsAppend(blocks: map<BlockId, Block>, little: seq<BlockId>, mid: seq<BlockId>, large: seq<BlockId>,
                    cl: int, cm: int, cg: int, t: Tier, b: BlockId, blk: Block)
    requires ListsOk(blocks, little, mid, large, cl, cm, cg) && b !in blocks && blk.tier == t
    requires |ListOf(t, little, mid, large)| < Count(t, cl, cm, cg)
    ensures ListsOk(blocks[b := blk], Grow(Little, t, little, b), Grow(Mid, t, mid, b), Grow(Large, t, large, b), cl, cm, cg)
  {
    ListGrow(blocks, little, Little, cl, t, b, blk);
    ListGrow(blocks, mid, Mid, cm, t, b, blk);
    ListGrow(blocks, large, Large, cg, t, b, blk);
    var blocks' := blocks[b := blk];
    forall b2 | b2 in blocks'
      ensures b2 in ListOf(blocks'[b2].tier, Grow(Little, t, little, b), Grow(Mid, t, mid, b), Grow(Large, t, large, b))
    {
      if b2 != b {
        assert b2 in ListOf(blocks[b2].tier, little, mid, large);
      } else {
        assert Grow(t, t, ListOf(t, little, mid, large), b)[|ListOf(t, little, mid, large)|] == b;
      }
    }
  }

  /** Raising tier t's counter by one, below its cap, keeps the lists sound. */
  lemma ListsBump(blocks: map<BlockId, Block>, little: seq<BlockId>, mid: seq<BlockId>, large: seq<BlockId>,
                  cl: int, cm: int, cg: int, t: Tier)
    requires ListsOk(blocks, little, mid, large, cl, cm, cg) && Count(t, cl, cm, cg) < MaxBlocks(t)
    ensures ListsOk(blocks, little, mid, large, Bump(Little, t, cl, 1), Bump(Mid, t, cm, 1), Bump(Large, t, cg, 1))
  {
  }

  lemma ListShrink(blocks: map<BlockId, Block>, l: seq<BlockId>, u: Tier, count: int, t: Tier, b: BlockId, i: nat)
    requires ListOk(blocks, l, u, count) && b in blocks && blocks[b].tier == t
    requires u == t ==> i < |l| && l[i] == b
    ensures ListOk(blocks - {b}, Shrink(u, t, l, i), u, Bump(u, t, count, -1))
  {
    if u == t {
      UnlinkDistinct(l, i);
      UnlinkRemoves(l, i);
      var d := Unlink(l, i);
      forall k | 0 <= k < |d| ensures d[k] in blocks - {b} && blocks[d[k]].tier == u {
        assert d[k] in l;
      }
    } else {
      forall k | 0 <= k < |l| ensures l[k] != b {
        assert blocks[l[k]].tier == u;
      }
    }
  }

  /**
   * Dropping block b, unlinked from its tier's list, with that tier's counter lowered by one,
   * keeps the lists sound.
   */
  lemma ListsUnlink(blocks: map<BlockId, Block>, little: seq<BlockId>, mid: seq<BlockId>, large: seq<BlockId>,
                    cl: int, cm: int, cg: int, b: BlockId)
    requires ListsOk(blocks, little, mid, large, cl, cm, cg) && b in blocks
    ensures b in ListOf(blocks[b].tier, little, mid, large)
    ensures var t := blocks[b].tier; var i := IndexOf(ListOf(t, little, mid, large), b);
      ListsOk(blocks - {b}, Shrink(Little, t, little, i), Shrink(Mid, t, mid, i), Shrink(Large, t, large, i),
              Bump(Little, t, cl, -1), Bump(Mid, t, cm, -1), Bump(Large, t, cg, -1))
  {
    var t := blocks[b].tier;
    var l := ListOf(t, little, mid, large);
    var i := IndexOf(l, b);
    ListShrink(blocks, little, Little, cl, t, b, i);
    ListShrink(blocks, mid, Mid, cm, t, b, i);
    ListShrink(blocks, large, Large, cg, t, b, i);
    UnlinkDistinct(l, i);
    var blocks' := blocks - {b};
    forall b2 | b2 in blocks'
      ensures b2 in ListOf(blocks'[b2].tier, Shrink(Little, t, little, i), Shrink(Mid, t, mid, i), Shrink(Large, t, large, i))
    {
      assert b2 in ListOf(blocks[b2].tier, little, mid, large);
    }
  }

  /** Splitting adds exactly the fresh id `bound` and keeps every payload as long as its size. */
  lemma SplitIds(rs: map<RegionId, Region>, blocks: map<BlockId, Block>, bound: nat, nextBlock: nat,
                 x: RegionId, n: nat)
    requires IdsOk(rs, blocks, bound, nextBlock) && x in rs && n + REGION_HEADER <= rs[x].size
    ensures |rs[x].data| == rs[x].size && bound !in rs
    ensures IdsOk(Split(rs, x, n, bound), blocks, bound + 1, nextBlock)
    ensures Split(rs, x, n, bound).Keys == rs.Keys + {bound}
    ensures |Split(rs, x, n, bound).Keys| == |rs.Keys| + 1
  {
    SplitRecords(rs, x, n, bound);
  }

  /** A fresh block with its first region takes the two fresh ids. */
  lemma AddIds(rs: map<RegionId, Region>, blocks: map<BlockId, Block>, nextRegion: nat, nextBlock: nat, t: Tier)
    requires IdsOk(rs, blocks, nextRegion, nextBlock)
    ensures nextRegion !in rs && nextBlock !in blocks
    ensures IdsOk(rs[nextRegion := FirstRegion(nextBlock, t)], blocks[nextBlock := Block(t, nextRegion)],
                  nextRegion + 1, nextBlock + 1)
    ensures |rs[nextRegion := FirstRegion(nextBlock, t)].Keys| == |rs.Keys| + 1
  {
    assert rs[nextRegion := FirstRegion(nextBlock, t)].Keys == rs.Keys + {nextRegion};
  }

  /** Dropping a block and its sole region. */
  lemma RemoveIds(rs: map<RegionId, Region>, blocks: map<BlockId, Block>, nextRegion: nat, nextBlock: nat,
                  s: RegionId, b: BlockId)
    requires IdsOk(rs, blocks, nextRegion, nextBlock) && s in rs
    ensures IdsOk(rs - {s}, blocks - {b}, nextRegion, nextBlock)
    ensures |(rs - {s}).Keys| == |rs.Keys| - 1
  {
    assert (rs - {s}).Keys == rs.Keys - {s};
  }

  /** A merge drops the absorbed id and the merged payload is as long as its new size. */
  lemma AbsorbIds(rs: map<RegionId, Region>, blocks: map<BlockId, Block>, nextRegion: nat, nextBlock: nat,
                  x: RegionId, y: RegionId)
    requires IdsOk(rs, blocks, nextRegion, nextBlock) && x in rs && rs[x].next == Some(y) && y in rs && y != x
    ensures IdsOk(Absorb(rs, x), blocks, nextRegion, nextBlock)
    ensures |Absorb(rs, x).Keys| == |rs.Keys| - 1
  {
    AbsorbRecords(rs, x, y);
  }

  /** Rewriting one record with a payload as long as its size. */
  lemma RewriteIds(rs: map<RegionId, Region>, blocks: map<BlockId, Block>, nextRegion: nat, nextBlock: nat,
                   x: RegionId, r': Region)
    requires IdsOk(rs, blocks, nextRegion, nextBlock) && x in rs && |r'.data| == r'.size
    ensures IdsOk(rs[x := r'], blocks, nextRegion, nextBlock) && rs[x := r'].Keys == rs.Keys
  {
  }
}
