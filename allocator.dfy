/**
 * The allocator of malloc.c as one object: the three tier lists with their head and tail
 * pointers (malloc.c:44-50), the regions of every mapped block, and the seven statistics
 * counters (malloc.c:53-60). Addresses are replaced by identities: a region id stands for
 * the pointer malloc hands out, a block id for a mapped block.
 */
module Malloc {
  import opened Wrappers
  import opened Layout
  import opened Regions
  import opened Fit
  import opened Tiers
  import opened Arena
  import opened Lists
  import opened Release

  /** The search policy, fixed at build time in the source by FIRST_FIT / BEST_FIT. */
  datatype Policy = FirstFitPolicy | BestFitPolicy | NoPolicy

  /** Why a call answered NULL with errno set to ENOMEM. */
  datatype Failure = InvalidSize | NoBlock | MapFailed

  /** The pointer a public entry point returns: a region's payload, NULL, or NULL with ENOMEM. */
  datatype Reply = Ptr(id: RegionId) | Null | Enomem(why: Failure)

  /** The record get_stats fills in (malloc.h). */
  datatype Stats = Stats(mallocs: int, frees: int, requestedMemory: int, amountOfRegions: int,
                         amountOfLittleBlocks: int, amountOfMidBlocks: int, amountOfLargeBlocks: int)

  /** The region a tier's search picks for n bytes under the policy. */
  ghost function Pick(policy: Policy, rs: map<RegionId, Region>, blocks: map<BlockId, Block>,
                      chains: map<BlockId, seq<RegionId>>, list: seq<BlockId>, t: Tier, n: nat): (r: Option<RegionId>)
    requires Ready(rs, blocks, chains, list)
    ensures r.Some? ==> r.value in rs && Fits(rs[r.value], n)
  {
    match policy
    case FirstFitPolicy => FirstFit(Walk(rs, blocks, chains, list), rs, n)
    case BestFitPolicy =>
      if n < BlockSize(t) then BestFit(Walk(rs, blocks, chains, list), rs, n, BlockSize(t) - n) else None
    case NoPolicy => None
  }

  lemma PickBest(rs: map<RegionId, Region>, blocks: map<BlockId, Block>,
                 chains: map<BlockId, seq<RegionId>>, list: seq<BlockId>, t: Tier, n: nat)
    requires Ready(rs, blocks, chains, list)
    ensures Pick(BestFitPolicy, rs, blocks, chains, list, t, n) ==
      if n < BlockSize(t) then BestFit(Walk(rs, blocks, chains, list), rs, n, BlockSize(t) - n) else None
  {
  }

  /** The cascade of find_free_region: little, then mid, then large, each only for n below its block size. */
  ghost function Search(policy: Policy, rs: map<RegionId, Region>, blocks: map<BlockId, Block>,
                        chains: map<BlockId, seq<RegionId>>, little: seq<BlockId>, mid: seq<BlockId>,
                        large: seq<BlockId>, n: nat): (r: Option<RegionId>)
    requires Ready(rs, blocks, chains, little) && Ready(rs, blocks, chains, mid) && Ready(rs, blocks, chains, large)
    ensures r.Some? ==> r.value in rs && Fits(rs[r.value], n)
  {
    var a := if n < LITTLE_BLOCK_SIZE then Pick(policy, rs, blocks, chains, little, Little, n) else None;
    var b := if a.None? && n < MID_BLOCK_SIZE then Pick(policy, rs, blocks, chains, mid, Mid, n) else a;
    if b.None? && n < LARGE_BLOCK_SIZE then Pick(policy, rs, blocks, chains, large, Large, n) else b
  }

  /** A sound tier list over a well-formed arena names only well-formed blocks. */
  lemma ListReady(rs: map<RegionId, Region>, blocks: map<BlockId, Block>, chains: map<BlockId, seq<RegionId>>,
                  l: seq<BlockId>, t: Tier, count: int)
    requires ArenaOk(rs, blocks, chains) && ListOk(blocks, l, t, count)
    ensures Ready(rs, blocks, chains, l)
  {
    forall i | 0 <= i < |l| ensures BlockOk(rs, blocks, chains, l[i]) {
    }
  }

  /** The three sound tier lists of a well-formed arena are ready for the search. */
  lemma ListsAreReady(rs: map<RegionId, Region>, blocks: map<BlockId, Block>, chains: map<BlockId, seq<RegionId>>,
                      little: seq<BlockId>, mid: seq<BlockId>, large: seq<BlockId>, cl: int, cm: int, cg: int)
    requires ArenaOk(rs, blocks, chains) && ListsOk(blocks, little, mid, large, cl, cm, cg)
    ensures Ready(rs, blocks, chains, little) && Ready(rs, blocks, chains, mid) && Ready(rs, blocks, chains, large)
  {
    ListReady(rs, blocks, chains, little, Little, cl);
    ListReady(rs, blocks, chains, mid, Mid, cm);
    ListReady(rs, blocks, chains, large, Large, cg);
  }

  /** The regions with region x marked used, as a successful search leaves them. */
  function Taken(rs: map<RegionId, Region>, x: RegionId): map<RegionId, Region>
    requires x in rs
  {
    rs[x := rs[x].(free := false)]
  }

  /** Marking a live region used keeps the arena well-formed, the same regions live and their payloads. */
  lemma TakenOk(rs: map<RegionId, Region>, blocks: map<BlockId, Block>, chains: map<BlockId, seq<RegionId>>,
                nextRegion: nat, nextBlock: nat, x: RegionId)
    requires ArenaOk(rs, blocks, chains) && IdsOk(rs, blocks, nextRegion, nextBlock) && x in rs
    ensures ArenaOk(Taken(rs, x), blocks, chains) && IdsOk(Taken(rs, x), blocks, nextRegion, nextBlock)
    ensures Taken(rs, x).Keys == rs.Keys
  {
    ArenaRewrite(rs, blocks, chains, x, rs[x].(free := false));
  }

  /**
   * The slack test of malloc.c:287-289 on region x serving n bytes: when at least a header and
   * a minimum payload are left over, x is split at n and the rest becomes a free region nid.
   * Either way x holds n bytes or more, and less than a split's worth beyond them.
   */
  function Carve(rs: map<RegionId, Region>, x: RegionId, n: nat, nid: RegionId): (r: map<RegionId, Region>)
    requires x in rs && n <= rs[x].size && |rs[x].data| == rs[x].size && nid != x
    ensures x in r && n <= r[x].size < n + SPLIT_THRESHOLD && r[x].size <= rs[x].size && |r[x].data| == r[x].size
    ensures r[x].owner == rs[x].owner && r[x].free == rs[x].free && r[x].data == rs[x].data[..r[x].size]
    ensures rs[x].size - n >= SPLIT_THRESHOLD ==>
      r[x].size == n && nid in r && r[nid].free && r[nid].size == rs[x].size - n - REGION_HEADER &&
      r.Keys == rs.Keys + {nid}
    ensures rs[x].size - n < SPLIT_THRESHOLD ==> r == rs
  {
    if rs[x].size - n >= SPLIT_THRESHOLD then Split(rs, x, n, nid) else rs
  }

  /** Region x with its payload starting with the bytes `fill` (calloc's memset, realloc's memcpy). */
  function Filled(rs: map<RegionId, Region>, x: RegionId, fill: seq<bv8>): (r: map<RegionId, Region>)
    requires x in rs && |fill| <= |rs[x].data| == rs[x].size
    ensures r.Keys == rs.Keys && SameLayout(rs[x], r[x]) && r[x].free == rs[x].free
    ensures r[x].data[..|fill|] == fill && r[x].data[|fill|..] == rs[x].data[|fill|..]
    ensures forall y | y in rs && y != x :: r[y] == rs[y]
  {
    rs[x := rs[x].(data := fill + rs[x].data[|fill|..])]
  }

  /** Splitting a live region keeps the arena well-formed, with the new region after it in its chain. */
  lemma SplitArenaOk(rs: map<RegionId, Region>, blocks: map<BlockId, Block>, chains: map<BlockId, seq<RegionId>>,
                     x: RegionId, n: nat, nid: RegionId) returns (chains': map<BlockId, seq<RegionId>>)
    requires ArenaOk(rs, blocks, chains) && x in rs && n + REGION_HEADER <= rs[x].size
    requires |rs[x].data| == rs[x].size && nid !in rs
    ensures ArenaOk(Split(rs, x, n, nid), blocks, chains')
  {
    Locate(rs, blocks, chains, x);
    var b := rs[x].owner;
    ArenaSplit(rs, blocks, chains, b, IndexOf(chains[b], x), n, nid);
    chains' := chains[b := InsertAfter(chains[b], IndexOf(chains[b], x), nid)];
  }

  /** A block whose chain has one region: that region is its first, and its payload names the block's tier. */
  lemma SoleRegionTier(rs: map<RegionId, Region>, blocks: map<BlockId, Block>, chains: map<BlockId, seq<RegionId>>,
                       b: BlockId)
    requires ArenaOk(rs, blocks, chains) && b in blocks && |chains[b]| == 1
    ensures chains[b] == [blocks[b].first] && blocks[b].first in rs
    ensures TierOfSpan(rs[blocks[b].first].size) == Some(blocks[b].tier)
  {
    assert BlockOk(rs, blocks, chains, b);
    assert chains[b] == [blocks[b].first];
    SoleRegionSize(rs, b, blocks[b].first, blocks[b].tier);
  }

  /** The block records with the three tier lists, their tail pointers and the three tier counters. */
  datatype Roster = Roster(blocks: map<BlockId, Block>, little: seq<BlockId>, mid: seq<BlockId>, large: seq<BlockId>,
                           lastLittle: Option<BlockId>, lastMid: Option<BlockId>, lastLarge: Option<BlockId>,
                           cl: int, cm: int, cg: int)

  /**
   * Roster r is r0 after delete_block dropped block b: b left its tier's list at its position
   * there, and that tier's counter, only that one, dropped by one; the tails are not touched.
   */
  ghost predicate Dropped(b: BlockId, r0: Roster, r: Roster)
  {
    b in r0.blocks && b in ListOf(r0.blocks[b].tier, r0.little, r0.mid, r0.large) &&
    var t := r0.blocks[b].tier;
    r == Unlisted(r0, t, IndexOf(ListOf(t, r0.little, r0.mid, r0.large), b)).(blocks := r0.blocks - {b})
  }

  /** Roster r with position i of tier t's list removed and that tier's counter dropped by one. */
  function Unlisted(r: Roster, t: Tier, i: nat): Roster
    requires i < |ListOf(t, r.little, r.mid, r.large)|
  {
    r.(little := Shrink(Little, t, r.little, i), mid := Shrink(Mid, t, r.mid, i), large := Shrink(Large, t, r.large, i),
       cl := Bump(Little, t, r.cl, -1), cm := Bump(Mid, t, r.cm, -1), cg := Bump(Large, t, r.cg, -1))
  }

  /** Roster r with tier t's counter raised by one, as create_block does before mapping (malloc.c:231-246). */
  function Raised(r: Roster, t: Tier): Roster
  {
    r.(cl := Bump(Little, t, r.cl, 1), cm := Bump(Mid, t, r.cm, 1), cg := Bump(Large, t, r.cg, 1))
  }

  /**
   * Roster r after create_block_with_size mapped block b of tier t with first region rid: b is
   * recorded, linked after tier t's tail and becomes that tail (malloc.c:204-214).
   */
  function Appended(r: Roster, t: Tier, b: BlockId, rid: RegionId): Roster
  {
    r.(blocks := r.blocks[b := Block(t, rid)],
       little := Grow(Little, t, r.little, b), mid := Grow(Mid, t, r.mid, b), large := Grow(Large, t, r.large, b),
       lastLittle := if t == Little then Some(b) else r.lastLittle,
       lastMid := if t == Mid then Some(b) else r.lastMid,
       lastLarge := if t == Large then Some(b) else r.lastLarge)
  }

  /** What the search-or-create step of malloc hands out: the reply, the regions and the roster it leaves. */
  datatype Grant = Grant(reply: Reply, regions: map<RegionId, Region>, roster: Roster)

  /** The regions an allocation leaves once `fill` is written at the start of the region it returns. */
  function Delivered(g: Grant, fill: seq<bv8>): map<RegionId, Region>
    requires g.reply.Ptr? ==> g.reply.id in g.regions && |fill| <= |g.regions[g.reply.id].data| == g.regions[g.reply.id].size
  {
    if g.reply.Ptr? then Filled(g.regions, g.reply.id, fill) else g.regions
  }

  /**
   * The miss branch of malloc for n bytes (malloc.c:279-289), from regions rs, roster r0 and
   * the next fresh ids: create_block's tier choice on the roster's counters, then the mapping
   * (mapOk), then the slack test on the new block's region.
   */
  function NewBlockGrant(rs: map<RegionId, Region>, r0: Roster, rid: RegionId, b: BlockId, n: nat, mapOk: bool): Grant
    requires var t := SelectTier(n, r0.cl, r0.cm, r0.cg); t.Some? ==> n <= FirstPayload(t.value)
  {
    match SelectTier(n, r0.cl, r0.cm, r0.cg)
    case None => Grant(Enomem(NoBlock), rs, r0)
    case Some(t) =>
      if !mapOk then Grant(Enomem(MapFailed), rs, Raised(r0, t))
      else Grant(Ptr(rid), Carve(rs[rid := FirstRegion(b, t)], rid, n, rid + 1), Appended(Raised(r0, t), t, b, rid))
  }

  /** The mapped case of NewBlockGrant, unfolded for tier t. */
  lemma NewBlockGrantMapped(rs: map<RegionId, Region>, r0: Roster, rid: RegionId, b: BlockId, n: nat, t: Tier)
    requires SelectTier(n, r0.cl, r0.cm, r0.cg) == Some(t) && n <= FirstPayload(t)
    ensures NewBlockGrant(rs, r0, rid, b, n, true) ==
      Grant(Ptr(rid), Carve(rs[rid := FirstRegion(b, t)], rid, n, rid + 1), Appended(Raised(r0, t), t, b, rid))
  {
  }

  /**
   * What the search-or-create step needs of the state it starts from for n bytes: a
   * well-formed arena, sound tier lists, fresh ids above every live one, and, when the
   * search misses, room for n bytes in the new block's region of the tier create_block
   * would open.
   */
  ghost predicate Prepared(policy: Policy, rs: map<RegionId, Region>, chains: map<BlockId, seq<RegionId>>, r0: Roster,
                           nextRegion: nat, nextBlock: nat, n: nat)
  {
    ArenaOk(rs, r0.blocks, chains) && ListsOk(r0.blocks, r0.little, r0.mid, r0.large, r0.cl, r0.cm, r0.cg) &&
    IdsOk(rs, r0.blocks, nextRegion, nextBlock) &&
    (Hits(policy, rs, chains, r0, n) || var t := SelectTier(n, r0.cl, r0.cm, r0.cg); t.Some? ==> n <= FirstPayload(t.value))
  }

  /** The search of malloc for n bytes finds a region in regions rs under roster r0. */
  ghost predicate Hits(policy: Policy, rs: map<RegionId, Region>, chains: map<BlockId, seq<RegionId>>, r0: Roster, n: nat)
  {
    Ready(rs, r0.blocks, chains, r0.little) && Ready(rs, r0.blocks, chains, r0.mid) && Ready(rs, r0.blocks, chains, r0.large) &&
    Search(policy, rs, r0.blocks, chains, r0.little, r0.mid, r0.large, n).Some?
  }

  /**
   * The search-or-create step of malloc (malloc.c:276-289) for n bytes from regions rs,
   * chains, roster r0 and the next fresh ids: the reply, the regions before any byte is
   * written, and the roster. A region found by the search is marked used and the roster
   * stays; on a miss, the tier create_block opens has its counter raised and, when the
   * mapping succeeds, gets a new block whose region is returned; with no tier open the reply
   * is ENOMEM and nothing changes. The region returned is carved.
   */
  ghost function AllocationOf(policy: Policy, rs: map<RegionId, Region>, chains: map<BlockId, seq<RegionId>>,
                              r0: Roster, nextRegion: nat, nextBlock: nat, n: nat, mapOk: bool): (g: Grant)
    requires Prepared(policy, rs, chains, r0, nextRegion, nextBlock, n)
    ensures g.reply.Ptr? ==>
      g.regions.Keys >= rs.Keys && g.reply.id in g.regions && !g.regions[g.reply.id].free &&
      n <= g.regions[g.reply.id].size < n + SPLIT_THRESHOLD &&
      |g.regions[g.reply.id].data| == g.regions[g.reply.id].size &&
      ((g.reply.id in rs && rs[g.reply.id].free) || g.reply.id == nextRegion)
    ensures !g.reply.Ptr? ==> g.reply.Enomem? && g.reply.why != InvalidSize && g.regions == rs
  {
    ListsAreReady(rs, r0.blocks, chains, r0.little, r0.mid, r0.large, r0.cl, r0.cm, r0.cg);
    var hit := Search(policy, rs, r0.blocks, chains, r0.little, r0.mid, r0.large, n);
    if hit.Some? then
      Grant(Ptr(hit.value), Carve(Taken(rs, hit.value), hit.value, n, nextRegion), r0)
    else
      NewBlockGrant(rs, r0, nextRegion, nextBlock, n, mapOk)
  }

  /**
   * What free leaves after the magic check passed for live region h, from regions rs0, count
   * n0 and roster r0: the merges of OutcomeOf happened, each taking one region off the count;
   * the survivor is free with the merged payload, or, if it was alone in its block, gone with
   * its block; every other region is still there, unchanged.
   */
  ghost predicate ReleasedFrom(h: RegionId, rs0: map<RegionId, Region>, n0: int, r0: Roster,
                               rs: map<RegionId, Region>, n: int, r: Roster)
    requires h in rs0
  {
    var o := OutcomeOf(rs0, h);
    n == n0 - (if o.right then 1 else 0) - (if o.left then 1 else 0) - (if o.sole then 1 else 0) &&
    (forall y | y in rs && y != o.survivor :: y in rs0 && rs[y] == rs0[y]) &&
    rs.Keys == rs0.Keys - Absorbed(rs0, h) - (if o.sole then {o.survivor} else {}) &&
    (!o.sole ==> o.survivor in rs && rs[o.survivor].free && rs[o.survivor].size == o.size && r == r0) &&
    (o.sole ==> o.survivor !in rs && Dropped(rs0[h].owner, r0, r))
  }

  /**
   * What free's merges leave for live region h, from regions rs0 and count n0: right and left
   * say which merges happened, as OutcomeOf decides them; s is the survivor, free, with the
   * merged payload, in h's block, and without neighbours exactly when the outcome says it is
   * alone; exactly the absorbed regions are gone, every other one is unchanged, and the count
   * drops by one per merge.
   */
  ghost predicate MergedFrom(h: RegionId, rs0: map<RegionId, Region>, n0: int, s: RegionId, right: bool, left: bool,
                             rs1: map<RegionId, Region>, n1: int)
    requires h in rs0
  {
    var o := OutcomeOf(rs0, h);
    right == o.right && left == o.left && s == o.survivor &&
    s in rs1 && rs1[s].free && rs1[s].size == o.size && rs1[s].owner == rs0[h].owner &&
    (o.sole <==> rs1[s].prev.None? && rs1[s].next.None?) &&
    (forall y | y in rs1 && y != s :: y in rs0 && rs1[y] == rs0[y]) &&
    rs1.Keys == rs0.Keys - Absorbed(rs0, h) &&
    n1 == n0 - (if right then 1 else 0) - (if left then 1 else 0)
  }

  /** free's mark, right merge (giving rs2) and left merge (giving rs1), step by step, give MergedFrom. */
  lemma MergeSteps(h: RegionId, rs0: map<RegionId, Region>, blocks: map<BlockId, Block>, chains: map<BlockId, seq<RegionId>>,
                   n0: int, s: RegionId, right: bool, left: bool, rs2: map<RegionId, Region>,
                   rs1: map<RegionId, Region>, n1: int)
    requires ArenaOk(rs0, blocks, chains) && PrevTrue(rs0, chains, h)
    requires right == NextFree(Marked(rs0, h), h) && rs2 == MergeNext(Marked(rs0, h), h) && h in rs2
    requires left == PrevFree(rs2, h)
    requires left ==> s == rs2[h].prev.value && s in rs2 && rs2[s].next == Some(h) && rs1 == Absorb(rs2, s)
    requires !left ==> s == h && rs1 == rs2
    requires n1 == n0 - (if right then 1 else 0) - (if left then 1 else 0)
    ensures MergedFrom(h, rs0, n0, s, right, left, rs1, n1)
  {
    ReleaseMerges(rs0, blocks, chains, h);
  }

  /**
   * The block release of free, from regions rs1, count n1 and roster r1 for survivor s: a
   * survivor with neither neighbour leaves, one region comes off the count and its block is
   * Dropped; otherwise nothing changes.
   */
  ghost predicate SoleReleased(s: RegionId, rs1: map<RegionId, Region>, n1: int, r1: Roster,
                               rs: map<RegionId, Region>, n: int, r: Roster)
    requires s in rs1
  {
    (rs1[s].prev.None? && rs1[s].next.None? ==> rs == rs1 - {s} && n == n1 - 1 && Dropped(rs1[s].owner, r1, r)) &&
    (!(rs1[s].prev.None? && rs1[s].next.None?) ==> rs == rs1 && n == n1 && r == r1)
  }

  /** The merges (regions rs1, count n1, survivor s) followed by the sole-region release give ReleasedFrom. */
  lemma ReleaseSteps(h: RegionId, rs0: map<RegionId, Region>, n0: int, r0: Roster, s: RegionId, right: bool, left: bool,
                     rs1: map<RegionId, Region>, n1: int, rs: map<RegionId, Region>, n: int, r: Roster)
    requires h in rs0 && MergedFrom(h, rs0, n0, s, right, left, rs1, n1)
    requires s in rs1 && SoleReleased(s, rs1, n1, r0, rs, n, r)
    ensures ReleasedFrom(h, rs0, n0, r0, rs, n, r)
  {
  }

  class Allocator {
    const policy: Policy

    var regions: map<RegionId, Region>
    var blocks: map<BlockId, Block>
    /** Each block's regions in address order, as its `next` links visit them. */
    ghost var chains: map<BlockId, seq<RegionId>>

    var littleBlocks: seq<BlockId>
    var midBlocks: seq<BlockId>
    var largeBlocks: seq<BlockId>
    var lastLittleBlock: Option<BlockId>
    var lastMidBlock: Option<BlockId>
    var lastLargeBlock: Option<BlockId>

    var amountOfMallocs: int
    var amountOfFrees: int
    var requestedMemory: int
    var amountOfRegions: int
    var amountOfLittleBlocks: int
    var amountOfMidBlocks: int
    var amountOfLargeBlocks: int

    /** Supply of fresh identities, standing for addresses not yet handed out. */
    var nextRegion: nat
    var nextBlock: nat

    function TierList(t: Tier): seq<BlockId>
      reads this`littleBlocks, this`midBlocks, this`largeBlocks
    {
      ListOf(t, littleBlocks, midBlocks, largeBlocks)
    }

    function LastOf(t: Tier): Option<BlockId>
      reads this`lastLittleBlock, this`lastMidBlock, this`lastLargeBlock
    {
      match t
      case Little => lastLittleBlock
      case Mid => lastMidBlock
      case Large => lastLargeBlock
    }

    function RosterNow(): Roster
      reads this`blocks, this`littleBlocks, this`midBlocks, this`largeBlocks
      reads this`lastLittleBlock, this`lastMidBlock, this`lastLargeBlock
      reads this`amountOfLittleBlocks, this`amountOfMidBlocks, this`amountOfLargeBlocks
    {
      Roster(blocks, littleBlocks, midBlocks, largeBlocks, lastLittleBlock, lastMidBlock, lastLargeBlock,
             amountOfLittleBlocks, amountOfMidBlocks, amountOfLargeBlocks)
    }

    function BlockCount(t: Tier): int
      reads this`amountOfLittleBlocks, this`amountOfMidBlocks, this`amountOfLargeBlocks
    {
      Count(t, amountOfLittleBlocks, amountOfMidBlocks, amountOfLargeBlocks)
    }

    /**
     * The allocator's invariant: every block's chain is well-formed and covers the block,
     * the tier lists are consistent with the block records, and the region counter is the
     * number of live regions.
     */
    ghost predicate Valid()
      reads this`regions, this`blocks, this`chains, this`littleBlocks, this`midBlocks, this`largeBlocks
      reads this`amountOfRegions, this`amountOfLittleBlocks, this`amountOfMidBlocks, this`amountOfLargeBlocks
      reads this`nextRegion, this`nextBlock
    {
      ArenaOk(regions, blocks, chains) &&
      ListsOk(blocks, littleBlocks, midBlocks, largeBlocks, amountOfLittleBlocks, amountOfMidBlocks, amountOfLargeBlocks) &&
      IdsOk(regions, blocks, nextRegion, nextBlock) && amountOfRegions == |regions.Keys|
    }

    constructor(policy: Policy)
      ensures Valid() && this.policy == policy
      ensures regions == map[] && blocks == map[]
      ensures littleBlocks == [] && midBlocks == [] && largeBlocks == []
      ensures lastLittleBlock.None? && lastMidBlock.None? && lastLargeBlock.None?
      ensures amountOfMallocs == 0 && amountOfFrees == 0 && requestedMemory == 0 && amountOfRegions == 0
      ensures amountOfLittleBlocks == 0 && amountOfMidBlocks == 0 && amountOfLargeBlocks == 0
    {
      this.policy := policy;
      regions := map[];
      blocks := map[];
      chains := map[];
      littleBlocks, midBlocks, largeBlocks := [], [], [];
      lastLittleBlock, lastMidBlock, lastLargeBlock := None, None, None;
      amountOfMallocs, amountOfFrees, requestedMemory, amountOfRegions := 0, 0, 0, 0;
      amountOfLittleBlocks, amountOfMidBlocks, amountOfLargeBlocks := 0, 0, 0;
      nextRegion, nextBlock := 0, 0;
    }

    /**
     * The inner loop of find_region_in_block_first_fit (malloc.c:95-103): one block's regions
     * along their `next` links, stopping at the first free region of at least n bytes;
     * `seen` is what the outer loop has visited, without a fit, before this block.
     */
    method ScanBlockFirstFit(b: BlockId, ghost c: seq<RegionId>, ghost seen: seq<RegionId>, n: nat)
      returns (r: Option<RegionId>)
      requires b in blocks && Threaded(regions, c) && blocks[b].first == c[0]
      requires AllIn(seen, regions) && FirstFit(seen, regions, n).None?
      ensures AllIn(seen + c, regions) && r == FirstFit(seen + c, regions, n)
    {
      var rs := regions;
      var cur: Option<RegionId> := Some(blocks[b].first);
      ghost var ri := 0;
      assert seen + c[..0] == seen;
      while cur.Some?
        invariant 0 <= ri <= |c|
        invariant cur == if ri < |c| then Some(c[ri]) else None
        invariant AllIn(seen + c[..ri], rs) && FirstFit(seen + c[..ri], rs, n).None?
        decreases |c| - ri
      {
        var x := cur.value;
        SnocSlice(seen, c, ri);
        FirstFitSnoc(seen + c[..ri], x, rs, n);
        if rs[x].free && rs[x].size >= n {
          PrefixSlice(seen, c, ri + 1);
          FirstFitSticky(seen + c[..ri + 1], seen + c, rs, n);
          return Some(x);
        }
        cur := rs[x].next;
        ri := ri + 1;
      }
      assert c[..ri] == c;
      return None;
    }

    /** The three tier lists are ready for a search. */
    ghost predicate ListsReady()
      reads this`regions, this`blocks, this`chains, this`littleBlocks, this`midBlocks, this`largeBlocks
    {
      Ready(regions, blocks, chains, littleBlocks) && Ready(regions, blocks, chains, midBlocks) &&
      Ready(regions, blocks, chains, largeBlocks)
    }

    /**
     * The outer loop of find_region_in_block_first_fit (malloc.c:94-104): the blocks of a
     * tier list in order, stopping at the first block that has a fit.
     */
    method ScanFirstFit(list: seq<BlockId>, n: nat) returns (r: Option<RegionId>)
      requires Ready(regions, blocks, chains, list)
      ensures (forall i | 0 <= i < |list| :: list[i] in chains) && AllIn(Flatten(list, chains), regions)
      ensures r == FirstFit(Flatten(list, chains), regions, n)
    {
      var rs, bs, cs := regions, blocks, chains;
      WalkAllIn(rs, bs, cs, list);
      ghost var seen: seq<RegionId> := [];
      var bi := 0;
      while bi < |list|
        invariant 0 <= bi <= |list|
        invariant seen == Flatten(list[..bi], cs)
        invariant AllIn(seen, rs) && FirstFit(seen, rs, n).None?
      {
        var b := list[bi];
        assert BlockOk(rs, bs, cs, b);
        ChainThreaded(rs, b, cs[b], bs[b].tier);
        r := ScanBlockFirstFit(b, cs[b], seen, n);
        FlattenStep(list, cs, bi);
        seen := seen + cs[b];
        if r.Some? {
          FlattenPrefix(list, cs, bi + 1);
          FirstFitSticky(seen, Flatten(list, cs), rs, n);
          return r;
        }
        bi := bi + 1;
      }
      assert list[..bi] == list;
      return None;
    }

    /** find_region_in_block_first_fit (malloc.c:90-106): the first fit, marked used. */
    method FindRegionFirstFit(t: Tier, n: nat) returns (r: Option<RegionId>)
      requires Ready(regions, blocks, chains, TierList(t))
      modifies this`regions
      ensures r == FirstFit(Walk(old(regions), blocks, chains, TierList(t)), old(regions), n)
      ensures r.Some? ==> r.value in old(regions) && regions == Taken(old(regions), r.value)
      ensures r.None? ==> regions == old(regions)
    {
      ghost var w := Walk(regions, blocks, chains, TierList(t));
      r := ScanFirstFit(TierList(t), n);
      assert r == FirstFit(w, regions, n);
      if r.Some? {
        Take(r.value);
      }
    }

    /** Marks live region x used (malloc.c:86, 100). */
    method Take(x: RegionId)
      requires x in regions
      modifies this`regions
      ensures regions == Taken(old(regions), x)
    {
      regions := Taken(regions, x);
    }

    /**
     * The inner loop of find_region_in_block_best_fit (malloc.c:74-82): one block's regions
     * along their `next` links, replacing the running candidate only on a strictly smaller
     * slack; `seen` is what the outer loop has visited before this block.
     */
    method ScanBlockBestFit(b: BlockId, ghost c: seq<RegionId>, ghost seen: seq<RegionId>, n: nat, limit: int,
                            best0: Option<RegionId>, dif0: int) returns (best: Option<RegionId>, bestDif: int)
      requires b in blocks && Threaded(regions, c) && blocks[b].first == c[0]
      requires AllIn(seen, regions) && (best0, dif0) == BestScan(seen, regions, n, limit)
      ensures AllIn(seen + c, regions) && (best, bestDif) == BestScan(seen + c, regions, n, limit)
    {
      var rs := regions;
      best, bestDif := best0, dif0;
      var cur: Option<RegionId> := Some(blocks[b].first);
      ghost var ri := 0;
      assert seen + c[..0] == seen;
      while cur.Some?
        invariant 0 <= ri <= |c|
        invariant cur == if ri < |c| then Some(c[ri]) else None
        invariant AllIn(seen + c[..ri], rs) && (best, bestDif) == BestScan(seen + c[..ri], rs, n, limit)
        decreases |c| - ri
      {
        var x := cur.value;
        SnocSlice(seen, c, ri);
        BestScanSnoc(seen + c[..ri], x, rs, n, limit);
        if rs[x].free && rs[x].size >= n && rs[x].size - n < bestDif {
          bestDif := rs[x].size - n;
          best := Some(x);
        }
        cur := rs[x].next;
        ri := ri + 1;
      }
      assert c[..ri] == c;
    }

    /**
     * The outer loop of find_region_in_block_best_fit (malloc.c:72-83): the blocks of a tier
     * list in order, starting from no candidate and the slack bound block_size - n.
     */
    method ScanBestFit(list: seq<BlockId>, n: nat, blockSize: nat) returns (r: Option<RegionId>)
      requires Ready(regions, blocks, chains, list) && n < blockSize
      ensures (forall i | 0 <= i < |list| :: list[i] in chains) && AllIn(Flatten(list, chains), regions)
      ensures r == BestFit(Flatten(list, chains), regions, n, blockSize - n)
    {
      WalkAllIn(regions, blocks, chains, list);
      var best: Option<RegionId> := None;
      var limit := blockSize - n;
      var bestDif: int := limit;
      var bi := 0;
      while bi < |list|
        invariant 0 <= bi <= |list|
        invariant AllIn(Flatten(list[..bi], chains), regions)
        invariant best == BestScan(Flatten(list[..bi], chains), regions, n, limit).0
        invariant bestDif == BestScan(Flatten(list[..bi], chains), regions, n, limit).1
      {
        best, bestDif := BestFitBlock(list, bi, n, limit, best, bestDif);
        bi := bi + 1;
      }
      assert list[..bi] == list;
      return best;
    }

    /** One pass of the outer loop of find_region_in_block_best_fit: block list[bi] is scanned. */
    method BestFitBlock(list: seq<BlockId>, bi: nat, n: nat, limit: int, best0: Option<RegionId>, dif0: int)
      returns (best: Option<RegionId>, bestDif: int)
      requires Ready(regions, blocks, chains, list) && bi < |list| && forall i | 0 <= i < |list| :: list[i] in chains
      requires AllIn(Flatten(list[..bi], chains), regions)
      requires (best0, dif0) == BestScan(Flatten(list[..bi], chains), regions, n, limit)
      ensures AllIn(Flatten(list[..bi + 1], chains), regions)
      ensures (best, bestDif) == BestScan(Flatten(list[..bi + 1], chains), regions, n, limit)
    {
      var b := list[bi];
      assert BlockOk(regions, blocks, chains, b);
      ChainThreaded(regions, b, chains[b], blocks[b].tier);
      best, bestDif := ScanBlockBestFit(b, chains[b], Flatten(list[..bi], chains), n, limit, best0, dif0);
      FlattenStep(list, chains, bi);
    }

    /** find_region_in_block_best_fit (malloc.c:62-88): the best fit, marked used after the walk. */
    method FindRegionBestFit(t: Tier, n: nat, blockSize: nat) returns (r: Option<RegionId>)
      requires Ready(regions, blocks, chains, TierList(t)) && n < blockSize
      modifies this`regions
      ensures r == BestFit(Walk(old(regions), blocks, chains, TierList(t)), old(regions), n, blockSize - n)
      ensures r.Some? ==> r.value in old(regions) && regions == Taken(old(regions), r.value)
      ensures r.None? ==> regions == old(regions)
    {
      ghost var w := Walk(regions, blocks, chains, TierList(t));
      r := ScanBestFit(TierList(t), n, blockSize);
      assert r == BestFit(w, regions, n, blockSize - n);
      if r.Some? {
        Take(r.value);
      }
    }

    /**
     * One guarded statement of the FIRST_FIT block of find_free_region (malloc.c:118-126):
     * tier t is searched only while nothing has been found and n is below its block size.
     */
    method FirstFitStep(t: Tier, n: nat, found: Option<RegionId>) returns (r: Option<RegionId>)
      requires policy == FirstFitPolicy
      requires found.None? ==> Ready(regions, blocks, chains, TierList(t))
      modifies this`regions
      ensures r == if found.None? && n < BlockSize(t) then Pick(policy, old(regions), blocks, chains, TierList(t), t, n) else found
      ensures r.Some? && found.None? ==> r.value in old(regions) && regions == Taken(old(regions), r.value)
      ensures r.None? || found.Some? ==> regions == old(regions)
    {
      r := found;
      if found.None? && n < BlockSize(t) {
        r := FindRegionFirstFit(t, n);
      }
    }

    /** The FIRST_FIT block of find_free_region (malloc.c:116-127). */
    method FirstFitCascade(n: nat) returns (r: Option<RegionId>)
      requires ListsReady() && policy == FirstFitPolicy
      modifies this`regions
      ensures r == Search(policy, old(regions), blocks, chains, littleBlocks, midBlocks, largeBlocks, n)
      ensures r.Some? ==> r.value in old(regions) && regions == Taken(old(regions), r.value)
      ensures r.None? ==> regions == old(regions)
    {
      r := FirstFitStep(Little, n, None);
      r := FirstFitStep(Mid, n, r);
      r := FirstFitStep(Large, n, r);
    }

    /**
     * One guarded statement of the BEST_FIT block of find_free_region (malloc.c:132-147):
     * tier t is searched, with its block size as the slack bound, only while nothing has
     * been found and n is below that block size.
     */
    method BestFitStep(t: Tier, n: nat, found: Option<RegionId>) returns (r: Option<RegionId>)
      requires policy == BestFitPolicy
      requires found.None? ==> Ready(regions, blocks, chains, TierList(t))
      modifies this`regions
      ensures r == if found.None? && n < BlockSize(t) then Pick(policy, old(regions), blocks, chains, TierList(t), t, n) else found
      ensures r.Some? && found.None? ==> r.value in old(regions) && regions == Taken(old(regions), r.value)
      ensures r.None? || found.Some? ==> regions == old(regions)
    {
      if found.None? && n < BlockSize(t) {
        PickBest(regions, blocks, chains, TierList(t), t, n);
        r := FindRegionBestFit(t, n, BlockSize(t));
      } else {
        r := found;
      }
    }

    /** The BEST_FIT block of find_free_region (malloc.c:130-148). */
    method BestFitCascade(n: nat) returns (r: Option<RegionId>)
      requires ListsReady() && policy == BestFitPolicy
      modifies this`regions
      ensures r == Search(policy, old(regions), blocks, chains, littleBlocks, midBlocks, largeBlocks, n)
      ensures r.Some? ==> r.value in old(regions) && regions == Taken(old(regions), r.value)
      ensures r.None? ==> regions == old(regions)
    {
      r := BestFitStep(Little, n, None);
      r := BestFitStep(Mid, n, r);
      r := BestFitStep(Large, n, r);
    }

    /**
     * find_free_region (malloc.c:111-151): under each policy, little, then mid, then large,
     * each tier tried only while nothing is found and n is strictly below its block size;
     * the region found is marked used. With no policy selected nothing is found.
     */
    method FindFreeRegion(n: nat) returns (r: Option<RegionId>)
      requires Valid()
      modifies this`regions
      ensures Valid()
      ensures old(ListsReady())
      ensures r == Search(policy, old(regions), old(blocks), old(chains), old(littleBlocks), old(midBlocks), old(largeBlocks), n)
      ensures r.Some? ==> r.value in old(regions) && regions == Taken(old(regions), r.value)
      ensures r.None? ==> regions == old(regions)
    {
      ListsAreReady(regions, blocks, chains, littleBlocks, midBlocks, largeBlocks,
                    amountOfLittleBlocks, amountOfMidBlocks, amountOfLargeBlocks);
      ghost var rs := regions;
      r := SearchTiers(n);
      if r.Some? {
        TakenOk(rs, blocks, chains, nextRegion, nextBlock, r.value);
      }
    }

    /** The policy dispatch of find_free_region (malloc.c:116-150). */
    method SearchTiers(n: nat) returns (r: Option<RegionId>)
      requires ListsReady()
      modifies this`regions
      ensures r == Search(policy, old(regions), blocks, chains, littleBlocks, midBlocks, largeBlocks, n)
      ensures r.Some? ==> r.value in old(regions) && regions == Taken(old(regions), r.value)
      ensures r.None? ==> regions == old(regions)
    {
      match policy {
        case FirstFitPolicy =>
          r := FirstFitCascade(n);
        case BestFitPolicy =>
          r := BestFitCascade(n);
        case NoPolicy =>
          r := None;
      }
    }
  
    /**
     * split_region (malloc.c:153-166): region x keeps its first n payload bytes and a new free
     * region, the next fresh id, takes the rest after its own header; the region count grows by 1.
     */
    method SplitRegion(x: RegionId, n: nat)
      requires Valid() && x in regions && n + REGION_HEADER <= regions[x].size
      modifies this`regions, this`chains, this`amountOfRegions, this`nextRegion
      ensures Valid()
      ensures old(|regions[x].data|) == old(regions[x].size)
      ensures regions == Split(old(regions), x, n, old(nextRegion))
      ensures old(nextRegion) !in old(regions)
      ensures amountOfRegions == old(amountOfRegions) + 1 && nextRegion == old(nextRegion) + 1
    {
      SplitInArena(x, n);
      amountOfRegions := amountOfRegions + 1;
    }

    /** The arena side of split_region: the region records, the chains and the fresh id. */
    method SplitInArena(x: RegionId, n: nat)
      requires ArenaOk(regions, blocks, chains) && IdsOk(regions, blocks, nextRegion, nextBlock)
      requires x in regions && n + REGION_HEADER <= regions[x].size
      modifies this`regions, this`chains, this`nextRegion
      ensures ArenaOk(regions, blocks, chains) && IdsOk(regions, blocks, nextRegion, nextBlock)
      ensures old(|regions[x].data|) == old(regions[x].size)
      ensures regions == Split(old(regions), x, n, old(nextRegion))
      ensures old(nextRegion) !in old(regions) && |regions.Keys| == old(|regions.Keys|) + 1
      ensures nextRegion == old(nextRegion) + 1
    {
      SplitIds(regions, blocks, nextRegion, nextBlock, x, n);
      chains := SplitArenaOk(regions, blocks, chains, x, n, nextRegion);
      regions := Split(regions, x, n, nextRegion);
      nextRegion := nextRegion + 1;
    }
  
    /** The arena side of a new block: its record and its first region, under the next fresh ids. */
    method AddBlockInArena(t: Tier) returns (b: BlockId, rid: RegionId)
      requires ArenaOk(regions, blocks, chains) && IdsOk(regions, blocks, nextRegion, nextBlock)
      modifies this`regions, this`blocks, this`chains, this`nextRegion, this`nextBlock
      ensures ArenaOk(regions, blocks, chains) && IdsOk(regions, blocks, nextRegion, nextBlock)
      ensures b == old(nextBlock) && rid == old(nextRegion) && b !in old(blocks) && rid !in old(regions)
      ensures regions == old(regions)[rid := FirstRegion(b, t)] && blocks == old(blocks)[b := Block(t, rid)]
      ensures |regions.Keys| == old(|regions.Keys|) + 1
      ensures nextRegion == old(nextRegion) + 1 && nextBlock == old(nextBlock) + 1
    {
      b, rid := nextBlock, nextRegion;
      AddIds(regions, blocks, rid, b, t);
      ArenaAddBlock(regions, blocks, chains, b, t, rid);
      regions := regions[rid := FirstRegion(b, t)];
      blocks := blocks[b := Block(t, rid)];
      chains := chains[b := [rid]];
      nextRegion := nextRegion + 1;
      nextBlock := nextBlock + 1;
    }

    /** The arena side of munmap: block b and its sole region leave. */
    method RemoveBlockInArena(b: BlockId)
      requires ArenaOk(regions, blocks, chains) && IdsOk(regions, blocks, nextRegion, nextBlock)
      requires b in blocks && |chains[b]| == 1
      modifies this`regions, this`blocks, this`chains
      ensures ArenaOk(regions, blocks, chains) && IdsOk(regions, blocks, nextRegion, nextBlock)
      ensures old(chains[b][0] in regions)
      ensures regions == old(regions) - {old(chains[b][0])} && blocks == old(blocks) - {b}
      ensures |regions.Keys| == old(|regions.Keys|) - 1
      ensures RosterNow() == old(RosterNow()).(blocks := old(blocks) - {b})
    {
      assert BlockOk(regions, blocks, chains, b);
      var s := blocks[b].first;
      assert chains[b] == [s];
      ChainMember(regions, b, [s], blocks[b].tier, 0);
      RemoveIds(regions, blocks, nextRegion, nextBlock, s, b);
      ArenaRemoveBlock(regions, blocks, chains, b, s);
      regions := regions - {s};
      blocks := blocks - {b};
      chains := chains - {b};
    }

    /** The arena side of a merge: live region x absorbs its successor. */
    method AbsorbInArena(x: RegionId)
      requires ArenaOk(regions, blocks, chains) && IdsOk(regions, blocks, nextRegion, nextBlock)
      requires x in regions && regions[x].next.Some?
      modifies this`regions, this`chains
      ensures ArenaOk(regions, blocks, chains) && IdsOk(regions, blocks, nextRegion, nextBlock)
      ensures old(regions[x].next.value in regions && regions[x].owner in chains && x in chains[regions[x].owner])
      ensures regions == Absorb(old(regions), x)
      ensures var b := old(regions[x].owner); var c := old(chains[b]); var i := IndexOf(c, x);
        i + 1 < |c| && c[i + 1] == old(regions[x].next.value) && chains == old(chains)[b := RemoveAt(c, i + 1)]
      ensures |regions.Keys| == old(|regions.Keys|) - 1
    {
      Locate(regions, blocks, chains, x);
      ghost var b := regions[x].owner;
      ghost var i := IndexOf(chains[b], x);
      ArenaAbsorb(regions, blocks, chains, b, i);
      AbsorbGuard(regions, b, chains[b], blocks[b].tier, i);
      AbsorbIds(regions, blocks, nextRegion, nextBlock, x, regions[x].next.value);
      assert i + 1 < |chains[b]| && chains[b][i + 1] == regions[x].next.value;
      regions := Absorb(regions, x);
      chains := chains[b := RemoveAt(chains[b], i + 1)];
    }

    /** The arena side of a write to one region's free flag or payload bytes. */
    method RewriteInArena(x: RegionId, r': Region)
      requires ArenaOk(regions, blocks, chains) && IdsOk(regions, blocks, nextRegion, nextBlock)
      requires x in regions && SameLayout(regions[x], r')
      modifies this`regions
      ensures ArenaOk(regions, blocks, chains) && IdsOk(regions, blocks, nextRegion, nextBlock)
      ensures regions == old(regions)[x := r'] && regions.Keys == old(regions.Keys)
    {
      RewriteIds(regions, blocks, nextRegion, nextBlock, x, r');
      ArenaRewrite(regions, blocks, chains, x, r');
      regions := regions[x := r'];
    }
  
    /** Points tier t's head at the list l (the list seen from the head), the other tiers untouched. */
    method SetList(t: Tier, l: seq<BlockId>)
      modifies this`littleBlocks, this`midBlocks, this`largeBlocks
      ensures littleBlocks == (if t == Little then l else old(littleBlocks))
      ensures midBlocks == (if t == Mid then l else old(midBlocks))
      ensures largeBlocks == (if t == Large then l else old(largeBlocks))
    {
      match t {
        case Little => littleBlocks := l;
        case Mid => midBlocks := l;
        case Large => largeBlocks := l;
      }
    }

    /** Points tier t's tail at last, the other tiers untouched. */
    method SetLast(t: Tier, last: Option<BlockId>)
      modifies this`lastLittleBlock, this`lastMidBlock, this`lastLargeBlock
      ensures lastLittleBlock == (if t == Little then last else old(lastLittleBlock))
      ensures lastMidBlock == (if t == Mid then last else old(lastMidBlock))
      ensures lastLargeBlock == (if t == Large then last else old(lastLargeBlock))
    {
      match t {
        case Little => lastLittleBlock := last;
        case Mid => lastMidBlock := last;
        case Large => lastLargeBlock := last;
      }
    }

    /**
     * update_block_list (malloc.c:294-308): the head of the tier whose block size equals the
     * payload plus both headers becomes l; any other payload changes nothing.
     */
    method UpdateBlockList(l: seq<BlockId>, size: nat)
      modifies this`littleBlocks, this`midBlocks, this`largeBlocks
      ensures littleBlocks == (if TierOfSpan(size) == Some(Little) then l else old(littleBlocks))
      ensures midBlocks == (if TierOfSpan(size) == Some(Mid) then l else old(midBlocks))
      ensures largeBlocks == (if TierOfSpan(size) == Some(Large) then l else old(largeBlocks))
    {
      match TierOfSpan(size) {
        case Some(t) => SetList(t, l);
        case None =>
      }
    }

    /** The counter switch of delete_block (malloc.c:335-345): the tier recognised from the payload loses one. */
    method DropBlockCount(size: nat)
      modifies this`amountOfLittleBlocks, this`amountOfMidBlocks, this`amountOfLargeBlocks
      ensures amountOfLittleBlocks == old(amountOfLittleBlocks) - (if TierOfSpan(size) == Some(Little) then 1 else 0)
      ensures amountOfMidBlocks == old(amountOfMidBlocks) - (if TierOfSpan(size) == Some(Mid) then 1 else 0)
      ensures amountOfLargeBlocks == old(amountOfLargeBlocks) - (if TierOfSpan(size) == Some(Large) then 1 else 0)
    {
      match TierOfSpan(size) {
        case Some(Little) => amountOfLittleBlocks := amountOfLittleBlocks - 1;
        case Some(Mid) => amountOfMidBlocks := amountOfMidBlocks - 1;
        case Some(Large) => amountOfLargeBlocks := amountOfLargeBlocks - 1;
        case None =>
      }
    }

    /** The unlinking step of delete_block (malloc.c:313-331), case by case on the block's neighbours. */
    method UnlinkBlock(b: BlockId, t: Tier, size: nat)
      requires b in TierList(t) && TierOfSpan(size) == Some(t)
      modifies this`littleBlocks, this`midBlocks, this`largeBlocks
      ensures var i := IndexOf(old(TierList(t)), b);
        littleBlocks == Shrink(Little, t, old(littleBlocks), i) && midBlocks == Shrink(Mid, t, old(midBlocks), i) &&
        largeBlocks == Shrink(Large, t, old(largeBlocks), i)
    {
      var l := TierList(t);
      var i := IndexOf(l, b);
      UnlinkRemoves(l, i);
      match TopologyOf(l, i) {
        case Sole => UpdateBlockList([], size);
        case Middle => SetList(t, l[..i] + l[i + 1..]);
        case First => UpdateBlockList(l[1..], size);
        case Last => SetList(t, l[..i]);
      }
    }

    /** delete_block up to the munmap (malloc.c:313-345): the unlinking and the two counters. */
    method DetachBlock(b: BlockId, t: Tier, size: nat)
      requires b in TierList(t) && TierOfSpan(size) == Some(t)
      modifies this`littleBlocks, this`midBlocks, this`largeBlocks
      modifies this`amountOfRegions, this`amountOfLittleBlocks, this`amountOfMidBlocks, this`amountOfLargeBlocks
      ensures var i := IndexOf(old(TierList(t)), b);
        littleBlocks == Shrink(Little, t, old(littleBlocks), i) && midBlocks == Shrink(Mid, t, old(midBlocks), i) &&
        largeBlocks == Shrink(Large, t, old(largeBlocks), i)
      ensures amountOfLittleBlocks == Bump(Little, t, old(amountOfLittleBlocks), -1)
      ensures amountOfMidBlocks == Bump(Mid, t, old(amountOfMidBlocks), -1)
      ensures amountOfLargeBlocks == Bump(Large, t, old(amountOfLargeBlocks), -1)
      ensures amountOfRegions == old(amountOfRegions) - 1
      ensures RosterNow() == Unlisted(old(RosterNow()), t, IndexOf(old(TierList(t)), b))
    {
      UnlinkBlock(b, t, size);
      amountOfRegions := amountOfRegions - 1;
      DropBlockCount(size);
    }

    /**
     * delete_block (malloc.c:311-347) for block b, whose only region has payload `size`: the
     * block leaves its tier list in each of the four topologies, the region count and the
     * tier's block count each drop by one, and the block and its region leave the records.
     * The tail pointers are never written, so after removing the last of several blocks the
     * tier's tail still names b (UnlinkStalesTail). The block is taken by identity, where free
     * as written passes an address 40 bytes into it (Release.DeleteAddressInGap); taking the
     * never-written links there as the zero bytes of a fresh mapping, Tiers.UnlinkAsWritten is
     * what the source then does.
     */
    method DeleteBlock(b: BlockId, size: nat)
      requires Valid() && b in blocks && |chains[b]| == 1 && blocks[b].first in regions
      requires size == regions[blocks[b].first].size
      modifies this`regions, this`blocks, this`chains, this`littleBlocks, this`midBlocks, this`largeBlocks
      modifies this`amountOfRegions, this`amountOfLittleBlocks, this`amountOfMidBlocks, this`amountOfLargeBlocks
      ensures Valid() && Dropped(b, old(RosterNow()), RosterNow())
      ensures regions == old(regions) - {old(blocks[b].first)} && blocks == old(blocks) - {b}
      ensures amountOfRegions == old(amountOfRegions) - 1
    {
      var t := blocks[b].tier;
      SoleRegionTier(regions, blocks, chains, b);
      ListsUnlink(blocks, littleBlocks, midBlocks, largeBlocks, amountOfLittleBlocks, amountOfMidBlocks, amountOfLargeBlocks, b);
      ghost var k := |regions.Keys|;
      DetachBlock(b, t, size);
      RemoveBlockInArena(b);
      assert amountOfRegions == k - 1 == |regions.Keys|;
    }

    /**
     * What create_block_with_size leaves for tier t, from roster r0: when the mapping fails,
     * NULL with the regions and the region count unchanged and the roster r0; otherwise the
     * fresh block joins the roster as Appended says, with one used, neighbourless region of
     * payload BlockSize - 64, which is returned.
     */
    twostate predicate BlockAdded(t: Tier, mapOk: bool, new r: Option<RegionId>, r0: Roster)
      reads this`regions, this`blocks, this`littleBlocks, this`midBlocks, this`largeBlocks
      reads this`lastLittleBlock, this`lastMidBlock, this`lastLargeBlock, this`amountOfRegions
      reads this`amountOfLittleBlocks, this`amountOfMidBlocks, this`amountOfLargeBlocks, this`nextRegion
    {
      if !mapOk then
        r.None? && regions == old(regions) && amountOfRegions == old(amountOfRegions) && RosterNow() == r0 &&
        nextRegion == old(nextRegion)
      else
        var b, rid := old(nextBlock), old(nextRegion);
        r == Some(rid) && rid !in old(regions) && b !in old(blocks) &&
        regions == old(regions)[rid := FirstRegion(b, t)] && RosterNow() == Appended(r0, t, b, rid) &&
        amountOfRegions == old(amountOfRegions) + 1 && nextRegion == rid + 1
    }

    /** The list step of create_block_with_size (malloc.c:204-214): b goes after the tail, and becomes it. */
    method AppendBlock(t: Tier, b: BlockId)
      modifies this`littleBlocks, this`midBlocks, this`largeBlocks
      modifies this`lastLittleBlock, this`lastMidBlock, this`lastLargeBlock
      ensures littleBlocks == Grow(Little, t, old(littleBlocks), b) && midBlocks == Grow(Mid, t, old(midBlocks), b) &&
        largeBlocks == Grow(Large, t, old(largeBlocks), b)
      ensures lastLittleBlock == (if t == Little then Some(b) else old(lastLittleBlock))
      ensures lastMidBlock == (if t == Mid then Some(b) else old(lastMidBlock))
      ensures lastLargeBlock == (if t == Large then Some(b) else old(lastLargeBlock))
    {
      if TierList(t) == [] {
        SetList(t, [b]);
      } else {
        SetList(t, TierList(t) + [b]);
      }
      SetLast(t, Some(b));
    }

    /**
     * create_block_with_size with create_region_in_new_block (malloc.c:168-220) for tier t;
     * mapOk says whether mmap succeeds. The tier's counter was already raised by the caller,
     * so it exceeds the list's length. The tail pointer must name the list's last block: the
     * source links the new block after whatever the tail names.
     */
    method CreateBlockWithSize(t: Tier, mapOk: bool) returns (r: Option<RegionId>)
      requires Valid() && TailSound(TierList(t), LastOf(t)) && |TierList(t)| < BlockCount(t)
      modifies this`regions, this`blocks, this`chains, this`nextRegion, this`nextBlock
      modifies this`littleBlocks, this`midBlocks, this`largeBlocks
      modifies this`lastLittleBlock, this`lastMidBlock, this`lastLargeBlock, this`amountOfRegions
      ensures Valid() && BlockAdded(t, mapOk, r, old(RosterNow()))
      ensures TailSound(TierList(t), LastOf(t))
    {
      if !mapOk {
        return None;
      }
      var b, rid := AddBlockToTier(t);
      amountOfRegions := amountOfRegions + 1;
      r := Some(rid);
    }

    /** The arena and list side of a mapped block for tier t: recorded, then appended to the list. */
    method AddBlockToTier(t: Tier) returns (b: BlockId, rid: RegionId)
      requires ArenaOk(regions, blocks, chains) && IdsOk(regions, blocks, nextRegion, nextBlock)
      requires ListsOk(blocks, littleBlocks, midBlocks, largeBlocks, amountOfLittleBlocks, amountOfMidBlocks, amountOfLargeBlocks)
      requires |TierList(t)| < BlockCount(t)
      modifies this`regions, this`blocks, this`chains, this`nextRegion, this`nextBlock
      modifies this`littleBlocks, this`midBlocks, this`largeBlocks
      modifies this`lastLittleBlock, this`lastMidBlock, this`lastLargeBlock
      ensures ArenaOk(regions, blocks, chains) && IdsOk(regions, blocks, nextRegion, nextBlock)
      ensures ListsOk(blocks, littleBlocks, midBlocks, largeBlocks, amountOfLittleBlocks, amountOfMidBlocks, amountOfLargeBlocks)
      ensures b == old(nextBlock) && rid == old(nextRegion) && b !in old(blocks) && rid !in old(regions)
      ensures regions == old(regions)[rid := FirstRegion(b, t)] && RosterNow() == Appended(old(RosterNow()), t, b, rid)
      ensures |regions.Keys| == old(|regions.Keys|) + 1 && nextRegion == rid + 1
    {
      ghost var r0 := RosterNow();
      b, rid := AddBlockInArena(t);
      AppendToTier(t, b, rid, r0);
    }

    /** Appends the freshly recorded block b of tier t to its list, keeping the lists sound. */
    method AppendToTier(t: Tier, b: BlockId, rid: RegionId, ghost r0: Roster)
      requires ListsOk(r0.blocks, r0.little, r0.mid, r0.large, r0.cl, r0.cm, r0.cg)
      requires b !in r0.blocks && RosterNow() == r0.(blocks := r0.blocks[b := Block(t, rid)])
      requires |TierList(t)| < BlockCount(t)
      modifies this`littleBlocks, this`midBlocks, this`largeBlocks
      modifies this`lastLittleBlock, this`lastMidBlock, this`lastLargeBlock
      ensures ListsOk(blocks, littleBlocks, midBlocks, largeBlocks, amountOfLittleBlocks, amountOfMidBlocks, amountOfLargeBlocks)
      ensures RosterNow() == Appended(r0, t, b, rid)
    {
      ListsAppend(r0.blocks, littleBlocks, midBlocks, largeBlocks, amountOfLittleBlocks, amountOfMidBlocks,
                  amountOfLargeBlocks, t, b, blocks[b]);
      AppendBlock(t, b);
    }

    /** Raises tier t's block counter by one. */
    method BumpBlockCount(t: Tier)
      modifies this`amountOfLittleBlocks, this`amountOfMidBlocks, this`amountOfLargeBlocks
      ensures RosterNow() == Raised(old(RosterNow()), t)
    {
      match t {
        case Little => amountOfLittleBlocks := amountOfLittleBlocks + 1;
        case Mid => amountOfMidBlocks := amountOfMidBlocks + 1;
        case Large => amountOfLargeBlocks := amountOfLargeBlocks + 1;
      }
    }

    /** The tier create_block would open for a request of n bytes under the current counters. */
    function OpenTier(n: nat): Option<Tier>
      reads this`amountOfLittleBlocks, this`amountOfMidBlocks, this`amountOfLargeBlocks
    {
      SelectTier(n, amountOfLittleBlocks, amountOfMidBlocks, amountOfLargeBlocks)
    }

    /**
     * create_block (malloc.c:222-250): the first tier, little then mid then large, whose block
     * size is at least n and whose counter is below its cap has its counter raised -- before
     * the mapping, so also when it fails -- and receives a new block; no such tier gives NULL
     * with nothing changed.
     */
    method CreateBlock(n: nat, mapOk: bool) returns (r: Option<RegionId>)
      requires Valid() && (OpenTier(n).Some? ==> TailSound(TierList(OpenTier(n).value), LastOf(OpenTier(n).value)))
      modifies this`regions, this`blocks, this`chains, this`nextRegion, this`nextBlock
      modifies this`littleBlocks, this`midBlocks, this`largeBlocks
      modifies this`lastLittleBlock, this`lastMidBlock, this`lastLargeBlock, this`amountOfRegions
      modifies this`amountOfLittleBlocks, this`amountOfMidBlocks, this`amountOfLargeBlocks
      ensures Valid()
      ensures old(OpenTier(n)).None? ==>
        r.None? && regions == old(regions) && amountOfRegions == old(amountOfRegions) && RosterNow() == old(RosterNow())
      ensures old(OpenTier(n)).Some? ==> var t := old(OpenTier(n).value);
        BlockAdded(t, mapOk, r, Raised(old(RosterNow()), t)) && TailSound(TierList(t), LastOf(t))
    {
      match OpenTier(n) {
        case None =>
          r := None;
        case Some(t) =>
          ListsBump(blocks, littleBlocks, midBlocks, largeBlocks, amountOfLittleBlocks, amountOfMidBlocks,
                    amountOfLargeBlocks, t);
          BumpBlockCount(t);
          r := CreateBlockWithSize(t, mapOk);
      }
    }

    /**
     * The merges of free (malloc.c:365-381) on the arena: h is marked free, absorbs its
     * successor when that one is free, and is absorbed by its predecessor when that one is
     * free. Reports which merges happened and the region that survives them.
     */
    method MergeInArena(h: RegionId) returns (s: RegionId, right: bool, left: bool)
      requires ArenaOk(regions, blocks, chains) && IdsOk(regions, blocks, nextRegion, nextBlock)
      requires h in regions && PrevTrue(regions, chains, h)
      modifies this`regions, this`chains, this`amountOfRegions
      ensures ArenaOk(regions, blocks, chains) && IdsOk(regions, blocks, nextRegion, nextBlock)
      ensures MergedFrom(h, old(regions), old(amountOfRegions), s, right, left, regions, amountOfRegions)
      ensures |regions.Keys| == old(|regions.Keys|) - (if right then 1 else 0) - (if left then 1 else 0)
    {
      ghost var rs0, n0, bs, cs := regions, amountOfRegions, blocks, chains;
      RewriteInArena(h, regions[h].(free := true));
      right := AbsorbNextInArena(h);
      ghost var rs2 := regions;
      s, left := AbsorbIntoPrevInArena(h);
      MergeSteps(h, rs0, bs, cs, n0, s, right, left, rs2, regions, amountOfRegions);
    }

    /** The arena side of the right merge; reports whether it happened. */
    method AbsorbNextInArena(h: RegionId) returns (merged: bool)
      requires ArenaOk(regions, blocks, chains) && IdsOk(regions, blocks, nextRegion, nextBlock)
      requires h in regions && PrevTrue(regions, chains, h)
      modifies this`regions, this`chains, this`amountOfRegions
      ensures ArenaOk(regions, blocks, chains) && IdsOk(regions, blocks, nextRegion, nextBlock)
      ensures PrevTrue(regions, chains, h)
      ensures merged == NextFree(old(regions), h) && regions == MergeNext(old(regions), h)
      ensures |regions.Keys| == old(|regions.Keys|) - (if merged then 1 else 0)
      ensures amountOfRegions == old(amountOfRegions) - (if merged then 1 else 0)
    {
      merged := false;
      var next := regions[h].next;
      if next.Some? {
        NextLive(regions, blocks, chains, h);
        if regions[next.value].free {
          MergeNextKeepsPrev(regions, blocks, chains, h);
          AbsorbInArena(h);
          amountOfRegions := amountOfRegions - 1;
          merged := true;
        }
      }
    }

    /** The arena side of the left merge; reports the survivor and whether the merge happened. */
    method AbsorbIntoPrevInArena(h: RegionId) returns (s: RegionId, merged: bool)
      requires ArenaOk(regions, blocks, chains) && IdsOk(regions, blocks, nextRegion, nextBlock)
      requires h in regions && PrevTrue(regions, chains, h)
      modifies this`regions, this`chains, this`amountOfRegions
      ensures ArenaOk(regions, blocks, chains) && IdsOk(regions, blocks, nextRegion, nextBlock)
      ensures s in regions && merged == PrevFree(old(regions), h)
      ensures amountOfRegions == old(amountOfRegions) - (if merged then 1 else 0)
      ensures merged ==>
        s == old(regions[h].prev.value) && old(s in regions && regions[s].next == Some(h)) &&
        regions == Absorb(old(regions), s) && |regions.Keys| == old(|regions.Keys|) - 1
      ensures !merged ==> s == h && regions == old(regions)
    {
      s, merged := h, false;
      var prev := regions[h].prev;
      if prev.Some? {
        PrevLinks(regions, blocks, chains, h);
        if regions[prev.value].free {
          AbsorbInArena(prev.value);
          amountOfRegions := amountOfRegions - 1;
          s, merged := prev.value, true;
        }
      }
    }

    /**
     * The block release of free (malloc.c:383-393): a region with neither neighbour is its
     * block's only region, and delete_block drops the block. The block is passed by identity.
     * The source computes it as the region's address minus one block header, which lands 40
     * bytes into the block (Release.DeleteAddressInGap). Taking the never-written links there
     * as the zero bytes of a fresh mapping, delete_block reads null links, empties the whole
     * tier list (Tiers.UnlinkAsWritten), and its munmap fails.
     */
    method ReleaseIfSole(s: RegionId)
      requires Valid() && s in regions
      modifies this`regions, this`blocks, this`chains, this`littleBlocks, this`midBlocks, this`largeBlocks
      modifies this`amountOfRegions, this`amountOfLittleBlocks, this`amountOfMidBlocks, this`amountOfLargeBlocks
      ensures Valid()
      ensures SoleReleased(s, old(regions), old(amountOfRegions), old(RosterNow()), regions, amountOfRegions, RosterNow())
    {
      if regions[s].prev.None? && regions[s].next.None? {
        SoleChain(regions, blocks, chains, s);
        DeleteBlock(regions[s].owner, regions[s].size);
      }
    }

    /** free after the magic check (malloc.c:363-393), for a used live region whose `prev` is sound. */
    method ReleaseRegion(h: RegionId)
      requires Valid() && h in regions && !regions[h].free && PrevTrue(regions, chains, h)
      modifies this`regions, this`blocks, this`chains, this`littleBlocks, this`midBlocks, this`largeBlocks
      modifies this`amountOfRegions, this`amountOfLittleBlocks, this`amountOfMidBlocks, this`amountOfLargeBlocks
      ensures Valid() && ReleasedFrom(h, old(regions), old(amountOfRegions), old(RosterNow()), regions, amountOfRegions, RosterNow())
    {
      ghost var rs0, n0, r0 := regions, amountOfRegions, RosterNow();
      var s, right, left := MergeInArena(h);
      ghost var rs1, n1, r1 := regions, amountOfRegions, RosterNow();
      assert r1 == r0;
      ReleaseIfSole(s);
      ReleaseSteps(h, rs0, n0, r0, s, right, left, rs1, n1, regions, amountOfRegions, RosterNow());
    }

    /**
     * free (malloc.c:350-394). The call is counted first. Every live region carries the magic
     * tag (LiveRegionTagged), so the magic check passes exactly for a handle naming a live
     * region; on any other handle nothing else changes. Otherwise the region must be in use
     * (the source asserts it) and its `prev` link sound, and ReleasedFrom describes the result.
     */
    method Free(h: RegionId)
      requires Valid() && (h in regions ==> !regions[h].free && PrevTrue(regions, chains, h))
      modifies this`regions, this`blocks, this`chains, this`littleBlocks, this`midBlocks, this`largeBlocks
      modifies this`amountOfRegions, this`amountOfLittleBlocks, this`amountOfMidBlocks, this`amountOfLargeBlocks
      modifies this`amountOfFrees
      ensures Valid() && amountOfFrees == old(amountOfFrees) + 1
      ensures h !in old(regions) ==> regions == old(regions) && amountOfRegions == old(amountOfRegions) && RosterNow() == old(RosterNow())
      ensures h in old(regions) ==> ReleasedFrom(h, old(regions), old(amountOfRegions), old(RosterNow()), regions, amountOfRegions, RosterNow())
    {
      amountOfFrees := amountOfFrees + 1;
      if h in regions {
        ReleaseRegion(h);
      }
    }

    /**
     * What create_block needs for a request of n bytes: the tier it would open can hold n
     * bytes in its new block's region, and that tier's tail pointer names its last block.
     */
    predicate CreateSafe(n: nat)
      reads this`amountOfLittleBlocks, this`amountOfMidBlocks, this`amountOfLargeBlocks
      reads this`littleBlocks, this`midBlocks, this`largeBlocks
      reads this`lastLittleBlock, this`lastMidBlock, this`lastLargeBlock
    {
      var t := OpenTier(n);
      t.Some? ==> n <= FirstPayload(t.value) && TailSound(TierList(t.value), LastOf(t.value))
    }

    /**
     * What malloc needs for n bytes: a search that finds a region needs nothing more; one
     * that misses needs CreateSafe.
     */
    ghost predicate ServeSafe(n: nat)
      reads this`regions, this`blocks, this`chains
      reads this`amountOfLittleBlocks, this`amountOfMidBlocks, this`amountOfLargeBlocks
      reads this`littleBlocks, this`midBlocks, this`largeBlocks
      reads this`lastLittleBlock, this`lastMidBlock, this`lastLargeBlock
    {
      Hits(policy, regions, chains, RosterNow(), n) || CreateSafe(n)
    }

    /** The slack test and split of malloc (malloc.c:286-289) on the region x about to be returned. */
    method CarveRegion(x: RegionId, n: nat)
      requires Valid() && x in regions && n <= regions[x].size
      modifies this`regions, this`chains, this`amountOfRegions, this`nextRegion
      ensures Valid()
      ensures old(|regions[x].data|) == old(regions[x].size)
      ensures regions == Carve(old(regions), x, n, old(nextRegion)) && RosterNow() == old(RosterNow())
    {
      if regions[x].size - n >= SPLIT_THRESHOLD {
        SplitRegion(x, n);
      }
    }

    /** Writes `fill` over the start of region x's payload (memset, memcpy). */
    method FillRegion(x: RegionId, fill: seq<bv8>)
      requires Valid() && x in regions && |fill| <= regions[x].size
      modifies this`regions
      ensures Valid() && regions == Filled(old(regions), x, fill) && RosterNow() == old(RosterNow())
    {
      RewriteInArena(x, regions[x].(data := fill + regions[x].data[|fill|..]));
    }

    /** find_free_region, then create_block on a miss, then the slack test (malloc.c:276-291). */
    method Serve(n: nat, mapOk: bool) returns (r: Reply)
      requires Valid() && ServeSafe(n)
      modifies this`regions, this`blocks, this`chains, this`nextRegion, this`nextBlock
      modifies this`littleBlocks, this`midBlocks, this`largeBlocks
      modifies this`lastLittleBlock, this`lastMidBlock, this`lastLargeBlock, this`amountOfRegions
      modifies this`amountOfLittleBlocks, this`amountOfMidBlocks, this`amountOfLargeBlocks
      ensures Valid()
      ensures AllocationOf(policy, old(regions), old(chains), old(RosterNow()), old(nextRegion), old(nextBlock), n, mapOk) ==
        Grant(r, regions, RosterNow())
    {
      var found := FindFreeRegion(n);
      if found.Some? {
        ghost var taken, nr := regions, nextRegion;
        CarveRegion(found.value, n);
        r := Ptr(found.value);
        assert Carve(taken, found.value, n, nr) == Carve(Taken(old(regions), found.value), found.value, n, old(nextRegion));
      } else {
        ghost var rs0 := regions;
        r := ServeFromNewBlock(n, mapOk);
        assert rs0 == old(regions);
      }
    }

    /** The miss branch of malloc (malloc.c:279-285): a new block, or ENOMEM. */
    method ServeFromNewBlock(n: nat, mapOk: bool) returns (r: Reply)
      requires Valid() && CreateSafe(n)
      modifies this`regions, this`blocks, this`chains, this`nextRegion, this`nextBlock
      modifies this`littleBlocks, this`midBlocks, this`largeBlocks
      modifies this`lastLittleBlock, this`lastMidBlock, this`lastLargeBlock, this`amountOfRegions
      modifies this`amountOfLittleBlocks, this`amountOfMidBlocks, this`amountOfLargeBlocks
      ensures Valid()
      ensures NewBlockGrant(old(regions), old(RosterNow()), old(nextRegion), old(nextBlock), n, mapOk) ==
        Grant(r, regions, RosterNow())
    {
      ghost var b, rid, r0 := nextBlock, nextRegion, RosterNow();
      var t := OpenTier(n);
      var got := CreateBlock(n, mapOk);
      if got.None? {
        r := if t.None? then Enomem(NoBlock) else Enomem(MapFailed);
        assert t.Some? ==> RosterNow() == Raised(r0, t.value);
        assert NewBlockGrant(old(regions), r0, rid, b, n, mapOk) == Grant(r, regions, RosterNow());
      } else {
        assert mapOk && got.value == rid && SelectTier(n, r0.cl, r0.cm, r0.cg) == t;
        r := CarveNewRegion(n, old(regions), r0, got.value, b, t.value);
      }
    }

    /**
     * The mapped case of the miss branch (malloc.c:283-289): block b of tier t was added with
     * region rid as its only region, and that region is carved for n bytes and returned.
     */
    method CarveNewRegion(n: nat, ghost rs0: map<RegionId, Region>, ghost r0: Roster, rid: RegionId,
                          ghost b: BlockId, ghost t: Tier) returns (r: Reply)
      requires Valid() && SelectTier(n, r0.cl, r0.cm, r0.cg) == Some(t) && n <= FirstPayload(t)
      requires regions == rs0[rid := FirstRegion(b, t)] && nextRegion == rid + 1
      requires RosterNow() == Appended(Raised(r0, t), t, b, rid)
      modifies this`regions, this`chains, this`amountOfRegions, this`nextRegion
      ensures Valid() && NewBlockGrant(rs0, r0, rid, b, n, true) == Grant(r, regions, RosterNow())
    {
      CarveRegion(rid, n);
      r := Ptr(rid);
      assert Carve(old(regions), rid, n, old(nextRegion)) == Carve(rs0[rid := FirstRegion(b, t)], rid, n, rid + 1);
      NewBlockGrantMapped(rs0, r0, rid, b, n, t);
    }

    /**
     * malloc (malloc.c:252-292). A size whose `int` reading is negative is refused with
     * ENOMEM and nothing changes; otherwise the size is normalized, the statistics count the
     * call and the normalized size, and the search-or-create step serves it. The frees
     * counter is outside the modifies clause, so it stays as it was.
     */
    method Malloc(size: nat, mapOk: bool) returns (r: Reply)
      requires Valid() && size < SIZE_T_LIMIT && (!Rejected(size) ==> ServeSafe(Normalize(size)))
      modifies this`regions, this`blocks, this`chains, this`nextRegion, this`nextBlock
      modifies this`littleBlocks, this`midBlocks, this`largeBlocks
      modifies this`lastLittleBlock, this`lastMidBlock, this`lastLargeBlock, this`amountOfRegions
      modifies this`amountOfLittleBlocks, this`amountOfMidBlocks, this`amountOfLargeBlocks
      modifies this`amountOfMallocs, this`requestedMemory
      ensures Valid()
      ensures Rejected(size) ==> r == Enomem(InvalidSize) && unchanged(this)
      ensures !Rejected(size) ==>
        amountOfMallocs == old(amountOfMallocs) + 1 &&
        requestedMemory == Int32(old(requestedMemory) + Normalize(size)) &&
        AllocationOf(policy, old(regions), old(chains), old(RosterNow()), old(nextRegion), old(nextBlock), Normalize(size), mapOk) ==
          Grant(r, regions, RosterNow())
    {
      if Rejected(size) {
        r := Enomem(InvalidSize);
      } else {
        var n := Normalize(size);
        assert ServeSafe(n);
        r := Accept(n, mapOk, Int32(requestedMemory + n));
      }
    }

    /** The accepted path of malloc for normalized size n: the statistics count it first, as in the source, then Serve serves it. */
    method Accept(n: nat, mapOk: bool, ghost total: int) returns (r: Reply)
      requires Valid() && ServeSafe(n) && total == Int32(requestedMemory + n)
      modifies this`regions, this`blocks, this`chains, this`nextRegion, this`nextBlock
      modifies this`littleBlocks, this`midBlocks, this`largeBlocks
      modifies this`lastLittleBlock, this`lastMidBlock, this`lastLargeBlock, this`amountOfRegions
      modifies this`amountOfLittleBlocks, this`amountOfMidBlocks, this`amountOfLargeBlocks
      modifies this`amountOfMallocs, this`requestedMemory
      ensures Valid()
      ensures amountOfMallocs == old(amountOfMallocs) + 1 && requestedMemory == total
      ensures AllocationOf(policy, old(regions), old(chains), old(RosterNow()), old(nextRegion), old(nextBlock), n, mapOk) ==
        Grant(r, regions, RosterNow())
    {
      CountMalloc(n, total);
      r := Serve(n, mapOk);
    }

    /** malloc's statistics (malloc.c:271-273): one more call, and n more bytes in the `int` total, which the caller passes as `total`. */
    method CountMalloc(n: nat, ghost total: int)
      requires total == Int32(requestedMemory + n)
      modifies this`amountOfMallocs, this`requestedMemory
      ensures amountOfMallocs == old(amountOfMallocs) + 1 && requestedMemory == total
    {
      amountOfMallocs := amountOfMallocs + 1;
      requestedMemory := Int32(requestedMemory + n);
    }

    /**
     * calloc (malloc.c:396-410): either factor with a negative `int` reading is refused with
     * ENOMEM; otherwise malloc serves the wrapped product and, when it succeeds, that many
     * bytes at the start of the region are zeroed.
     */
    method Calloc(nmemb: nat, size: nat, mapOk: bool) returns (r: Reply)
      requires Valid() && nmemb < SIZE_T_LIMIT && size < SIZE_T_LIMIT
      requires var total := WrapMul(nmemb, size);
        !Rejected(nmemb) && !Rejected(size) && !Rejected(total) ==> ServeSafe(Normalize(total))
      modifies this`regions, this`blocks, this`chains, this`nextRegion, this`nextBlock
      modifies this`littleBlocks, this`midBlocks, this`largeBlocks
      modifies this`lastLittleBlock, this`lastMidBlock, this`lastLargeBlock, this`amountOfRegions
      modifies this`amountOfLittleBlocks, this`amountOfMidBlocks, this`amountOfLargeBlocks
      modifies this`amountOfMallocs, this`requestedMemory
      ensures Valid()
      ensures var total := WrapMul(nmemb, size);
        Rejected(nmemb) || Rejected(size) || Rejected(total) ==> r == Enomem(InvalidSize) && unchanged(this)
      ensures var total := WrapMul(nmemb, size);
        !Rejected(nmemb) && !Rejected(size) && !Rejected(total) ==>
          amountOfMallocs == old(amountOfMallocs) + 1 &&
          requestedMemory == Int32(old(requestedMemory) + Normalize(total)) &&
          var g := AllocationOf(policy, old(regions), old(chains), old(RosterNow()), old(nextRegion), old(nextBlock), Normalize(total), mapOk);
          r == g.reply && RosterNow() == g.roster && regions == Delivered(g, Zeros(total))
    {
      if Rejected(nmemb) || Rejected(size) {
        r := Enomem(InvalidSize);
      } else {
        r := ZeroedMalloc(WrapMul(nmemb, size), mapOk, Int32(requestedMemory + Normalize(WrapMul(nmemb, size))));
      }
    }

    /** calloc once both factors passed (malloc.c:403-409): malloc of the product, then the memset. */
    method ZeroedMalloc(total: nat, mapOk: bool, ghost sum: int) returns (r: Reply)
      requires Valid() && total < SIZE_T_LIMIT && (!Rejected(total) ==> ServeSafe(Normalize(total)))
      requires sum == Int32(requestedMemory + Normalize(total))
      modifies this`regions, this`blocks, this`chains, this`nextRegion, this`nextBlock
      modifies this`littleBlocks, this`midBlocks, this`largeBlocks
      modifies this`lastLittleBlock, this`lastMidBlock, this`lastLargeBlock, this`amountOfRegions
      modifies this`amountOfLittleBlocks, this`amountOfMidBlocks, this`amountOfLargeBlocks
      modifies this`amountOfMallocs, this`requestedMemory
      ensures Valid()
      ensures Rejected(total) ==> r == Enomem(InvalidSize) && unchanged(this)
      ensures !Rejected(total) ==>
        amountOfMallocs == old(amountOfMallocs) + 1 && requestedMemory == sum &&
        var g := AllocationOf(policy, old(regions), old(chains), old(RosterNow()), old(nextRegion), old(nextBlock), Normalize(total), mapOk);
        r == g.reply && RosterNow() == g.roster && regions == Delivered(g, Zeros(total))
    {
      r := Malloc(total, mapOk);
      if !Rejected(total) {
        ghost var g := AllocationOf(policy, old(regions), old(chains), old(RosterNow()), old(nextRegion), old(nextBlock),
                                    Normalize(total), mapOk);
        Deliver(r, Zeros(total), g);
      }
    }

    /**
     * The copy after a call to malloc that produced grant g: when a region was returned, `fill`
     * is written over its start (calloc's memset, malloc.c:404-405; realloc's memcpy,
     * malloc.c:433-434).
     */
    method Deliver(r: Reply, fill: seq<bv8>, ghost g: Grant)
      requires Valid() && r == g.reply && regions == g.regions
      requires r.Ptr? ==> r.id in regions && |fill| <= regions[r.id].size
      modifies this`regions
      ensures Valid() && regions == Delivered(g, fill) && RosterNow() == old(RosterNow())
    {
      if r.Ptr? {
        FillRegion(r.id, fill);
      }
    }

    /**
     * realloc (malloc.c:413-439). A size whose `int` reading is negative is refused with
     * ENOMEM. A non-zero size with no handle is malloc's; with the handle of a live region,
     * Resize serves it. Size zero frees the handle and answers NULL; the source then calls
     * free on whatever it was given, which is why a handle is required there.
     */
    method Realloc(h: Option<RegionId>, size: nat, mapOk: bool) returns (r: Reply)
      requires Valid() && size < SIZE_T_LIMIT
      requires !Rejected(size) && size != 0 && h.None? ==> ServeSafe(Normalize(size))
      requires !Rejected(size) && size != 0 && h.Some? ==>
        h.value in regions && (regions[h.value].size <= size ==> ServeSafe(Normalize(size)))
      requires !Rejected(size) && size == 0 ==>
        h.Some? && (h.value in regions ==> !regions[h.value].free && PrevTrue(regions, chains, h.value))
      modifies this`regions, this`blocks, this`chains, this`nextRegion, this`nextBlock
      modifies this`littleBlocks, this`midBlocks, this`largeBlocks
      modifies this`lastLittleBlock, this`lastMidBlock, this`lastLargeBlock, this`amountOfRegions
      modifies this`amountOfLittleBlocks, this`amountOfMidBlocks, this`amountOfLargeBlocks
      modifies this`amountOfMallocs, this`amountOfFrees, this`requestedMemory
      ensures Valid()
      ensures Rejected(size) ==> r == Enomem(InvalidSize) && unchanged(this)
      ensures !Rejected(size) && size != 0 && h.None? ==>
        amountOfMallocs == old(amountOfMallocs) + 1 && amountOfFrees == old(amountOfFrees) &&
        requestedMemory == Int32(old(requestedMemory) + Normalize(size)) &&
        AllocationOf(policy, old(regions), old(chains), old(RosterNow()), old(nextRegion), old(nextBlock), Normalize(size), mapOk) ==
          Grant(r, regions, RosterNow())
      ensures !Rejected(size) && size != 0 && h.Some? && old(regions[h.value].size) > size ==>
        r == Ptr(h.value) && regions == Carve(old(regions), h.value, size, old(nextRegion)) &&
        RosterNow() == old(RosterNow()) && amountOfMallocs == old(amountOfMallocs) &&
        amountOfFrees == old(amountOfFrees) && requestedMemory == old(requestedMemory)
      ensures !Rejected(size) && size != 0 && h.Some? && old(regions[h.value].size) <= size ==>
        amountOfMallocs == old(amountOfMallocs) + 1 && amountOfFrees == old(amountOfFrees) &&
        requestedMemory == Int32(old(requestedMemory) + Normalize(size)) &&
        var g := AllocationOf(policy, old(regions), old(chains), old(RosterNow()), old(nextRegion), old(nextBlock),
                              Normalize(size), mapOk);
        r == g.reply && RosterNow() == g.roster && regions == Delivered(g, old(regions[h.value].data))
      ensures !Rejected(size) && size == 0 ==>
        r == Null && amountOfFrees == old(amountOfFrees) + 1 && amountOfMallocs == old(amountOfMallocs) &&
        requestedMemory == old(requestedMemory) &&
        (h.value !in old(regions) ==>
          regions == old(regions) && amountOfRegions == old(amountOfRegions) && RosterNow() == old(RosterNow())) &&
        (h.value in old(regions) ==> ReleasedFrom(h.value, old(regions), old(amountOfRegions), old(RosterNow()), regions, amountOfRegions, RosterNow()))
    {
      if Rejected(size) {
        return Enomem(InvalidSize);
      }
      if size != 0 {
        r := Reserve(h, size, mapOk);
      } else {
        r := Discard(h.value);
      }
    }

    /** realloc for size zero (malloc.c:437-438): the handle is freed and the answer is NULL. */
    method Discard(h: RegionId) returns (r: Reply)
      requires Valid() && (h in regions ==> !regions[h].free && PrevTrue(regions, chains, h))
      modifies this`regions, this`blocks, this`chains, this`littleBlocks, this`midBlocks, this`largeBlocks
      modifies this`amountOfRegions, this`amountOfLittleBlocks, this`amountOfMidBlocks, this`amountOfLargeBlocks
      modifies this`amountOfFrees
      ensures Valid()
      ensures r == Null && amountOfFrees == old(amountOfFrees) + 1 && amountOfMallocs == old(amountOfMallocs) &&
        requestedMemory == old(requestedMemory) &&
        (h !in old(regions) ==>
          regions == old(regions) && amountOfRegions == old(amountOfRegions) && RosterNow() == old(RosterNow())) &&
        (h in old(regions) ==> ReleasedFrom(h, old(regions), old(amountOfRegions), old(RosterNow()), regions, amountOfRegions, RosterNow()))
    {
      Free(h);
      r := Null;
    }

    /** realloc for a non-zero size (malloc.c:420-436): malloc's without a handle, Resize's with one. */
    method Reserve(h: Option<RegionId>, size: nat, mapOk: bool) returns (r: Reply)
      requires Valid() && size < SIZE_T_LIMIT && !Rejected(size) && size != 0
      requires h.None? ==> ServeSafe(Normalize(size))
      requires h.Some? ==> h.value in regions && (regions[h.value].size <= size ==> ServeSafe(Normalize(size)))
      modifies this`regions, this`blocks, this`chains, this`nextRegion, this`nextBlock
      modifies this`littleBlocks, this`midBlocks, this`largeBlocks
      modifies this`lastLittleBlock, this`lastMidBlock, this`lastLargeBlock, this`amountOfRegions
      modifies this`amountOfLittleBlocks, this`amountOfMidBlocks, this`amountOfLargeBlocks
      modifies this`amountOfMallocs, this`requestedMemory
      ensures Valid()
      ensures !Rejected(size) && size != 0 && h.None? ==>
        amountOfMallocs == old(amountOfMallocs) + 1 &&
        requestedMemory == Int32(old(requestedMemory) + Normalize(size)) &&
        AllocationOf(policy, old(regions), old(chains), old(RosterNow()), old(nextRegion), old(nextBlock), Normalize(size), mapOk) ==
          Grant(r, regions, RosterNow())
      ensures !Rejected(size) && size != 0 && h.Some? && old(regions[h.value].size) > size ==>
        r == Ptr(h.value) && regions == Carve(old(regions), h.value, size, old(nextRegion)) &&
        RosterNow() == old(RosterNow()) && amountOfMallocs == old(amountOfMallocs) &&
        requestedMemory == old(requestedMemory)
      ensures !Rejected(size) && size != 0 && h.Some? && old(regions[h.value].size) <= size ==>
        amountOfMallocs == old(amountOfMallocs) + 1 &&
        requestedMemory == Int32(old(requestedMemory) + Normalize(size)) &&
        var g := AllocationOf(policy, old(regions), old(chains), old(RosterNow()), old(nextRegion), old(nextBlock),
                              Normalize(size), mapOk);
        r == g.reply && RosterNow() == g.roster && regions == Delivered(g, old(regions[h.value].data))
    {
      if h.None? {
        r := Malloc(size, mapOk);
      } else {
        r := Resize(h.value, size, mapOk);
      }
    }

    /**
     * realloc on live region h for a non-zero size (malloc.c:422-435): a region larger than
     * the size is kept, and split at the size -- the size as given, not normalized -- when
     * the slack test allows; otherwise malloc serves the size and the old region's whole
     * payload is copied to the start of the new one. The old region is not freed.
     */
    method Resize(h: RegionId, size: nat, mapOk: bool) returns (r: Reply)
      requires Valid() && size < SIZE_T_LIMIT && !Rejected(size) && h in regions
      requires regions[h].size <= size ==> ServeSafe(Normalize(size))
      modifies this`regions, this`blocks, this`chains, this`nextRegion, this`nextBlock
      modifies this`littleBlocks, this`midBlocks, this`largeBlocks
      modifies this`lastLittleBlock, this`lastMidBlock, this`lastLargeBlock, this`amountOfRegions
      modifies this`amountOfLittleBlocks, this`amountOfMidBlocks, this`amountOfLargeBlocks
      modifies this`amountOfMallocs, this`requestedMemory
      ensures Valid()
      ensures old(regions[h].size) > size ==>
        r == Ptr(h) && regions == Carve(old(regions), h, size, old(nextRegion)) && RosterNow() == old(RosterNow()) &&
        amountOfMallocs == old(amountOfMallocs) && requestedMemory == old(requestedMemory)
      ensures old(regions[h].size) <= size ==>
        amountOfMallocs == old(amountOfMallocs) + 1 && requestedMemory == Int32(old(requestedMemory) + Normalize(size)) &&
        var g := AllocationOf(policy, old(regions), old(chains), old(RosterNow()), old(nextRegion), old(nextBlock),
                              Normalize(size), mapOk);
        r == g.reply && RosterNow() == g.roster && regions == Delivered(g, old(regions[h].data))
    {
      if regions[h].size > size {
        CarveRegion(h, size);
        r := Ptr(h);
      } else {
        r := Move(h, size, mapOk);
      }
    }

    /** The growing case of realloc (malloc.c:432-434): malloc, then a copy of the old payload. */
    method Move(h: RegionId, size: nat, mapOk: bool) returns (r: Reply)
      requires Valid() && size < SIZE_T_LIMIT && !Rejected(size) && h in regions
      requires regions[h].size <= size && ServeSafe(Normalize(size))
      modifies this`regions, this`blocks, this`chains, this`nextRegion, this`nextBlock
      modifies this`littleBlocks, this`midBlocks, this`largeBlocks
      modifies this`lastLittleBlock, this`lastMidBlock, this`lastLargeBlock, this`amountOfRegions
      modifies this`amountOfLittleBlocks, this`amountOfMidBlocks, this`amountOfLargeBlocks
      modifies this`amountOfMallocs, this`requestedMemory
      ensures Valid()
      ensures amountOfMallocs == old(amountOfMallocs) + 1 && requestedMemory == Int32(old(requestedMemory) + Normalize(size))
      ensures var g := AllocationOf(policy, old(regions), old(chains), old(RosterNow()), old(nextRegion), old(nextBlock),
                                    Normalize(size), mapOk);
        r == g.reply && RosterNow() == g.roster && regions == Delivered(g, old(regions[h].data))
    {
      var bytes := regions[h].data;
      r := Malloc(size, mapOk);
      ghost var g := AllocationOf(policy, old(regions), old(chains), old(RosterNow()), old(nextRegion), old(nextBlock),
                                  Normalize(size), mapOk);
      Deliver(r, bytes, g);
    }

    /** get_stats (malloc.c:441-451): the seven counters, as the tier lists and the arena bound them. */
    method GetStats() returns (s: Stats)
      requires Valid()
      ensures s == Stats(amountOfMallocs, amountOfFrees, requestedMemory, amountOfRegions,
                         amountOfLittleBlocks, amountOfMidBlocks, amountOfLargeBlocks)
      ensures s.amountOfRegions == |regions.Keys|
      ensures |littleBlocks| <= s.amountOfLittleBlocks <= MAX_LITTLE_BLOCKS
      ensures |midBlocks| <= s.amountOfMidBlocks <= MAX_MID_BLOCKS
      ensures |largeBlocks| <= s.amountOfLargeBlocks <= MAX_LARGE_BLOCKS
    {
      s := Stats(amountOfMallocs, amountOfFrees, requestedMemory, amountOfRegions,
                 amountOfLittleBlocks, amountOfMidBlocks, amountOfLargeBlocks);
    }
  }
}
