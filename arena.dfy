/**
 * The arena of all live regions, with the block records that own them: the invariant that
 * ties every block to a well-formed chain and every live region to the chain of its block,
 * and how each kind of update (a region rewritten, split or absorbed, a block added or
 * dropped) preserves it.
 *
 * The per-block and per-region facts are wrapped in BlockOk and OwnerOk, and the quantifiers
 * over them fire only on those terms, so a proof unfolds a block's chain only where it
 * names that block.
 */
module Arena {
  import opened Wrappers
  import opened Layout
  import opened Regions
  import opened Fit
  import opened Tiers

  /** A mapped block (malloc.c:28-32): its tier and its first region. */
  datatype Block = Block(tier: Tier, first: RegionId)

  /** Block b's chain is well-formed for its tier and starts at the block's first region. */
  ghost predicate BlockOk(rs: map<RegionId, Region>, blocks: map<BlockId, Block>, chains: map<BlockId, seq<RegionId>>,
                          b: BlockId)
  {
    b in blocks && b in chains && ChainOk(rs, b, chains[b], blocks[b].tier) && blocks[b].first == chains[b][0]
  }

  ghost predicate BlocksOk(rs: map<RegionId, Region>, blocks: map<BlockId, Block>, chains: map<BlockId, seq<RegionId>>)
  {
    forall b {:trigger BlockOk(rs, blocks, chains, b)} | b in blocks :: BlockOk(rs, blocks, chains, b)
  }

  /** Live region x sits in the chain of the block that owns it. */
  ghost predicate OwnerOk(rs: map<RegionId, Region>, blocks: map<BlockId, Block>, chains: map<BlockId, seq<RegionId>>,
                          x: RegionId)
  {
    x in rs && rs[x].owner in blocks && rs[x].owner in chains && x in chains[rs[x].owner]
  }

  ghost predicate OwnersOk(rs: map<RegionId, Region>, blocks: map<BlockId, Block>, chains: map<BlockId, seq<RegionId>>)
  {
    forall x {:trigger OwnerOk(rs, blocks, chains, x)} | x in rs :: OwnerOk(rs, blocks, chains, x)
  }

  ghost predicate ArenaOk(rs: map<RegionId, Region>, blocks: map<BlockId, Block>, chains: map<BlockId, seq<RegionId>>)
  {
    blocks.Keys == chains.Keys && BlocksOk(rs, blocks, chains) && OwnersOk(rs, blocks, chains)
  }

  /** Every id of a well-formed chain names a live region owned by the chain's block. */
  lemma ChainMember(rs: map<RegionId, Region>, b: BlockId, c: seq<RegionId>, t: Tier, i: nat)
    requires ChainOk(rs, b, c, t) && i < |c|
    ensures c[i] in rs && rs[c[i]].owner == b && HeaderOk(rs[c[i]], b, i, NextIn(c, i))
  {
  }

  /** A chain of block b2 survives any update that keeps every region not owned by b. */
  lemma OtherChainKept(rs: map<RegionId, Region>, rs': map<RegionId, Region>,
                       b: BlockId, b2: BlockId, c2: seq<RegionId>, t2: Tier)
    requires ChainOk(rs, b2, c2, t2) && b2 != b
    requires forall x | x in rs && rs[x].owner != b :: x in rs' && rs'[x] == rs[x]
    ensures ChainOk(rs', b2, c2, t2)
  {
    forall i | 0 <= i < |c2| ensures c2[i] in rs' && rs'[c2[i]] == rs[c2[i]] {
      ChainMember(rs, b2, c2, t2, i);
    }
    ChainFrame(rs, rs', b2, c2, t2);
  }

  /** The live regions of a block are exactly the ids of its chain. */
  lemma OwnedIsChain(rs: map<RegionId, Region>, blocks: map<BlockId, Block>, chains: map<BlockId, seq<RegionId>>,
                     b: BlockId, x: RegionId)
    requires ArenaOk(rs, blocks, chains) && b in blocks
    ensures x in rs && rs[x].owner == b <==> x in chains[b]
  {
    assert BlockOk(rs, blocks, chains, b);
    if x in rs {
      assert OwnerOk(rs, blocks, chains, x);
    }
    if x in chains[b] {
      var i :| 0 <= i < |chains[b]| && chains[b][i] == x;
      ChainMember(rs, b, chains[b], blocks[b].tier, i);
    }
  }

  /** Replacing block b's chain by a well-formed c' keeps every block well-formed when no other block's region changes. */
  lemma RechainBlocks(rs: map<RegionId, Region>, blocks: map<BlockId, Block>, chains: map<BlockId, seq<RegionId>>,
                      rs': map<RegionId, Region>, b: BlockId, c': seq<RegionId>)
    requires BlocksOk(rs, blocks, chains) && b in blocks
    requires ChainOk(rs', b, c', blocks[b].tier) && c'[0] == blocks[b].first
    requires forall x | x in rs && rs[x].owner != b :: x in rs' && rs'[x] == rs[x]
    ensures BlocksOk(rs', blocks, chains[b := c'])
  {
    forall b2 | b2 in blocks ensures BlockOk(rs', blocks, chains[b := c'], b2) {
      if b2 != b {
        assert BlockOk(rs, blocks, chains, b2);
        OtherChainKept(rs, rs', b, b2, chains[b2], blocks[b2].tier);
      }
    }
  }

  lemma KeptChain(rs: map<RegionId, Region>, rs': map<RegionId, Region>, b2: BlockId, c2: seq<RegionId>, t2: Tier)
    requires ChainOk(rs, b2, c2, t2)
    requires forall x | x in rs :: x in rs' && rs'[x] == rs[x]
    ensures ChainOk(rs', b2, c2, t2)
  {
    forall i | 0 <= i < |c2| ensures c2[i] in rs' && rs'[c2[i]] == rs[c2[i]] {
      ChainMember(rs, b2, c2, t2, i);
    }
    ChainFrame(rs, rs', b2, c2, t2);
  }

  lemma AddBlockBlocks(rs: map<RegionId, Region>, blocks: map<BlockId, Block>, chains: map<BlockId, seq<RegionId>>,
                       b: BlockId, t: Tier, rid: RegionId)
    requires BlocksOk(rs, blocks, chains) && b !in blocks && rid !in rs
    ensures BlocksOk(rs[rid := FirstRegion(b, t)], blocks[b := Block(t, rid)], chains[b := [rid]])
  {
    var rs' := rs[rid := FirstRegion(b, t)];
    var blocks' := blocks[b := Block(t, rid)];
    var chains' := chains[b := [rid]];
    FirstRegionChain(rs', rid, b, t);
    forall b2 | b2 in blocks' ensures BlockOk(rs', blocks', chains', b2) {
      if b2 != b {
        assert BlockOk(rs, blocks, chains, b2);
        KeptChain(rs, rs', b2, chains[b2], blocks[b2].tier);
      }
    }
  }

  lemma AddBlockOwners(rs: map<RegionId, Region>, blocks: map<BlockId, Block>, chains: map<BlockId, seq<RegionId>>,
                       b: BlockId, t: Tier, rid: RegionId)
    requires OwnersOk(rs, blocks, chains) && b !in blocks && rid !in rs
    ensures OwnersOk(rs[rid := FirstRegion(b, t)], blocks[b := Block(t, rid)], chains[b := [rid]])
  {
    var rs' := rs[rid := FirstRegion(b, t)];
    forall x | x in rs' ensures OwnerOk(rs', blocks[b := Block(t, rid)], chains[b := [rid]], x) {
      if x != rid {
        assert OwnerOk(rs, blocks, chains, x);
      }
    }
  }

  /** A freshly mapped block with its single first region joins the arena. */
  lemma ArenaAddBlock(rs: map<RegionId, Region>, blocks: map<BlockId, Block>, chains: map<BlockId, seq<RegionId>>,
                      b: BlockId, t: Tier, rid: RegionId)
    requires ArenaOk(rs, blocks, chains) && b !in blocks && rid !in rs
    ensures ArenaOk(rs[rid := FirstRegion(b, t)], blocks[b := Block(t, rid)], chains[b := [rid]])
  {
    AddBlockBlocks(rs, blocks, chains, b, t, rid);
    AddBlockOwners(rs, blocks, chains, b, t, rid);
  }

  lemma RemoveBlockBlocks(rs: map<RegionId, Region>, blocks: map<BlockId, Block>, chains: map<BlockId, seq<RegionId>>,
                          b: BlockId, s: RegionId)
    requires BlocksOk(rs, blocks, chains) && b in blocks && b in chains && chains[b] == [s]
    ensures BlocksOk(rs - {s}, blocks - {b}, chains - {b})
  {
    assert BlockOk(rs, blocks, chains, b);
    ChainMember(rs, b, [s], blocks[b].tier, 0);
    forall b2 | b2 in blocks - {b} ensures BlockOk(rs - {s}, blocks - {b}, chains - {b}, b2) {
      assert BlockOk(rs, blocks, chains, b2);
      OtherChainKept(rs, rs - {s}, b, b2, chains[b2], blocks[b2].tier);
    }
  }

  lemma RemoveBlockOwners(rs: map<RegionId, Region>, blocks: map<BlockId, Block>, chains: map<BlockId, seq<RegionId>>,
                          b: BlockId, s: RegionId)
    requires ArenaOk(rs, blocks, chains) && b in blocks && chains[b] == [s]
    ensures OwnersOk(rs - {s}, blocks - {b}, chains - {b})
  {
    var rs' := rs - {s};
    forall x | x in rs' ensures OwnerOk(rs', blocks - {b}, chains - {b}, x) {
      OwnedIsChain(rs, blocks, chains, b, x);
      assert OwnerOk(rs, blocks, chains, x);
    }
  }

  /** A block whose chain is the single region s leaves the arena together with s. */
  lemma ArenaRemoveBlock(rs: map<RegionId, Region>, blocks: map<BlockId, Block>, chains: map<BlockId, seq<RegionId>>,
                         b: BlockId, s: RegionId)
    requires ArenaOk(rs, blocks, chains) && b in blocks && chains[b] == [s]
    ensures ArenaOk(rs - {s}, blocks - {b}, chains - {b})
  {
    RemoveBlockBlocks(rs, blocks, chains, b, s);
    RemoveBlockOwners(rs, blocks, chains, b, s);
  }

  /** Position of a region in a chain. */
  function IndexOf(c: seq<RegionId>, x: RegionId): (k: nat)
    requires x in c
    ensures k < |c| && c[k] == x
  {
    if c[0] == x then 0 else 1 + IndexOf(c[1..], x)
  }

  /** The block owning a live region, that region's position in its chain, and its header. */
  lemma Locate(rs: map<RegionId, Region>, blocks: map<BlockId, Block>, chains: map<BlockId, seq<RegionId>>, x: RegionId)
    requires ArenaOk(rs, blocks, chains) && x in rs
    ensures rs[x].owner in blocks && rs[x].owner in chains && x in chains[rs[x].owner]
    ensures BlockOk(rs, blocks, chains, rs[x].owner)
    ensures var c := chains[rs[x].owner]; var i := IndexOf(c, x);
      ChainOk(rs, rs[x].owner, c, blocks[rs[x].owner].tier) &&
      HeaderOk(rs[x], rs[x].owner, i, NextIn(c, i))
  {
    assert OwnerOk(rs, blocks, chains, x);
    var b := rs[x].owner;
    assert BlockOk(rs, blocks, chains, b);
    ChainMember(rs, b, chains[b], blocks[b].tier, IndexOf(chains[b], x));
  }

  /** Marking a region used or free, or writing its bytes, keeps every chain well-formed. */
  lemma RewriteBlocks(rs: map<RegionId, Region>, blocks: map<BlockId, Block>, chains: map<BlockId, seq<RegionId>>,
                      x: RegionId, r': Region)
    requires BlocksOk(rs, blocks, chains) && x in rs && SameLayout(rs[x], r')
    ensures BlocksOk(rs[x := r'], blocks, chains)
  {
    forall b | b in blocks ensures BlockOk(rs[x := r'], blocks, chains, b) {
      assert BlockOk(rs, blocks, chains, b);
      RewriteKeepsChain(rs, b, chains[b], blocks[b].tier, x, r');
    }
  }

  lemma RewriteOwners(rs: map<RegionId, Region>, blocks: map<BlockId, Block>, chains: map<BlockId, seq<RegionId>>,
                      x: RegionId, r': Region)
    requires OwnersOk(rs, blocks, chains) && x in rs && r'.owner == rs[x].owner
    ensures OwnersOk(rs[x := r'], blocks, chains)
  {
    var rs' := rs[x := r'];
    forall y | y in rs' ensures OwnerOk(rs', blocks, chains, y) {
      assert OwnerOk(rs, blocks, chains, y);
    }
  }

  lemma ArenaRewrite(rs: map<RegionId, Region>, blocks: map<BlockId, Block>, chains: map<BlockId, seq<RegionId>>,
                     x: RegionId, r': Region)
    requires ArenaOk(rs, blocks, chains) && x in rs && SameLayout(rs[x], r')
    ensures ArenaOk(rs[x := r'], blocks, chains)
  {
    RewriteBlocks(rs, blocks, chains, x, r');
    RewriteOwners(rs, blocks, chains, x, r');
  }

  /** What a split does to the chain it happens in, and that it leaves other blocks' regions alone. */
  lemma SplitLocal(rs: map<RegionId, Region>, b: BlockId, c: seq<RegionId>, t: Tier, i: nat, n: nat, nid: RegionId)
    requires ChainOk(rs, b, c, t) && i < |c| && n + REGION_HEADER <= rs[c[i]].size && nid !in rs
    requires |rs[c[i]].data| == rs[c[i]].size
    ensures ChainOk(Split(rs, c[i], n, nid), b, InsertAfter(c, i, nid), t)
    ensures InsertAfter(c, i, nid)[0] == c[0]
    ensures forall x | x in rs && rs[x].owner != b :: x in Split(rs, c[i], n, nid) && Split(rs, c[i], n, nid)[x] == rs[x]
  {
    ChainMember(rs, b, c, t, i);
    SplitKeepsChain(rs, b, c, t, i, n, nid);
    InsertAfterAt(c, i, nid, 0);
  }

  lemma SplitBlocks(rs: map<RegionId, Region>, blocks: map<BlockId, Block>, chains: map<BlockId, seq<RegionId>>,
                    b: BlockId, i: nat, n: nat, nid: RegionId)
    requires BlocksOk(rs, blocks, chains) && BlockOk(rs, blocks, chains, b) && i < |chains[b]|
    requires chains[b][i] in rs && n + REGION_HEADER <= rs[chains[b][i]].size && nid !in rs
    requires |rs[chains[b][i]].data| == rs[chains[b][i]].size
    ensures BlocksOk(Split(rs, chains[b][i], n, nid), blocks, chains[b := InsertAfter(chains[b], i, nid)])
  {
    SplitLocal(rs, b, chains[b], blocks[b].tier, i, n, nid);
    RechainBlocks(rs, blocks, chains, Split(rs, chains[b][i], n, nid), b, InsertAfter(chains[b], i, nid));
  }

  lemma SplitOwners(rs: map<RegionId, Region>, blocks: map<BlockId, Block>, chains: map<BlockId, seq<RegionId>>,
                    b: BlockId, i: nat, n: nat, nid: RegionId)
    requires OwnersOk(rs, blocks, chains) && b in blocks && b in chains && i < |chains[b]|
    requires chains[b][i] in rs && rs[chains[b][i]].owner == b
    requires n + REGION_HEADER <= rs[chains[b][i]].size && nid !in rs
    requires |rs[chains[b][i]].data| == rs[chains[b][i]].size
    ensures OwnersOk(Split(rs, chains[b][i], n, nid), blocks, chains[b := InsertAfter(chains[b], i, nid)])
  {
    var c := chains[b];
    var d := InsertAfter(c, i, nid);
    var rs' := Split(rs, c[i], n, nid);
    SplitRecords(rs, c[i], n, nid);
    InsertAfterAt(c, i, nid, i + 1);
    forall y | y in rs' ensures OwnerOk(rs', blocks, chains[b := d], y) {
      if y != nid {
        assert OwnerOk(rs, blocks, chains, y);
        if rs[y].owner == b {
          var j :| 0 <= j < |c| && c[j] == y;
          InsertAfterAt(c, i, nid, if j <= i then j else j + 1);
        }
      }
    }
  }

  /** Splitting a live region keeps the arena well-formed, the new region joining its block's chain. */
  lemma ArenaSplit(rs: map<RegionId, Region>, blocks: map<BlockId, Block>, chains: map<BlockId, seq<RegionId>>,
                   b: BlockId, i: nat, n: nat, nid: RegionId)
    requires ArenaOk(rs, blocks, chains) && b in blocks && i < |chains[b]|
    requires chains[b][i] in rs && n + REGION_HEADER <= rs[chains[b][i]].size && nid !in rs
    requires |rs[chains[b][i]].data| == rs[chains[b][i]].size
    ensures ArenaOk(Split(rs, chains[b][i], n, nid), blocks, chains[b := InsertAfter(chains[b], i, nid)])
  {
    assert BlockOk(rs, blocks, chains, b);
    ChainMember(rs, b, chains[b], blocks[b].tier, i);
    SplitBlocks(rs, blocks, chains, b, i, n, nid);
    SplitOwners(rs, blocks, chains, b, i, n, nid);
  }

  /** What an absorption does to the chain it happens in, and that it leaves other blocks' regions alone. */
  lemma AbsorbLocal(rs: map<RegionId, Region>, b: BlockId, c: seq<RegionId>, t: Tier, i: nat)
    requires ChainOk(rs, b, c, t) && i + 1 < |c|
    ensures c[i] in rs && c[i + 1] in rs && rs[c[i]].next == Some(c[i + 1])
    ensures ChainOk(Absorb(rs, c[i]), b, RemoveAt(c, i + 1), t)
    ensures RemoveAt(c, i + 1)[0] == c[0]
    ensures forall x | x in rs && rs[x].owner != b :: x in Absorb(rs, c[i]) && Absorb(rs, c[i])[x] == rs[x]
  {
    ChainMember(rs, b, c, t, i);
    ChainMember(rs, b, c, t, i + 1);
    AbsorbKeepsChain(rs, b, c, t, i);
    RemoveAtAt(c, i + 1, 0);
  }

  lemma AbsorbBlocks(rs: map<RegionId, Region>, blocks: map<BlockId, Block>, chains: map<BlockId, seq<RegionId>>,
                     b: BlockId, i: nat)
    requires BlocksOk(rs, blocks, chains) && BlockOk(rs, blocks, chains, b) && i + 1 < |chains[b]|
    ensures chains[b][i] in rs && chains[b][i + 1] in rs && rs[chains[b][i]].next == Some(chains[b][i + 1])
    ensures BlocksOk(Absorb(rs, chains[b][i]), blocks, chains[b := RemoveAt(chains[b], i + 1)])
  {
    AbsorbLocal(rs, b, chains[b], blocks[b].tier, i);
    RechainBlocks(rs, blocks, chains, Absorb(rs, chains[b][i]), b, RemoveAt(chains[b], i + 1));
  }

  lemma AbsorbOwners(rs: map<RegionId, Region>, blocks: map<BlockId, Block>, chains: map<BlockId, seq<RegionId>>,
                     b: BlockId, i: nat)
    requires OwnersOk(rs, blocks, chains) && BlockOk(rs, blocks, chains, b) && i + 1 < |chains[b]|
    ensures chains[b][i] in rs && chains[b][i + 1] in rs && rs[chains[b][i]].next == Some(chains[b][i + 1])
    ensures OwnersOk(Absorb(rs, chains[b][i]), blocks, chains[b := RemoveAt(chains[b], i + 1)])
  {
    var c := chains[b];
    AbsorbGuard(rs, b, c, blocks[b].tier, i);
    AbsorbRecords(rs, c[i], c[i + 1]);
    AbsorbOwnersKept(rs, blocks, chains, b, i, Absorb(rs, c[i]));
  }

  lemma AbsorbOwnersKept(rs: map<RegionId, Region>, blocks: map<BlockId, Block>, chains: map<BlockId, seq<RegionId>>,
                         b: BlockId, i: nat, rs': map<RegionId, Region>)
    requires OwnersOk(rs, blocks, chains) && b in blocks && b in chains && i + 1 < |chains[b]|
    requires rs'.Keys == rs.Keys - {chains[b][i + 1]}
    requires forall y | y in rs' :: rs'[y].owner == rs[y].owner
    ensures OwnersOk(rs', blocks, chains[b := RemoveAt(chains[b], i + 1)])
  {
    forall y | y in rs' ensures OwnerOk(rs', blocks, chains[b := RemoveAt(chains[b], i + 1)], y) {
      assert OwnerOk(rs, blocks, chains, y);
      if rs[y].owner == b {
        RemoveAtKeeps(chains[b], i + 1, y);
      }
    }
  }

  lemma AbsorbGuard(rs: map<RegionId, Region>, b: BlockId, c: seq<RegionId>, t: Tier, i: nat)
    requires ChainOk(rs, b, c, t) && i + 1 < |c|
    ensures c[i] in rs && c[i + 1] in rs && rs[c[i]].next == Some(c[i + 1]) && c[i] != c[i + 1]
  {
    ChainMember(rs, b, c, t, i);
  }

  lemma RemoveAtKeeps(c: seq<RegionId>, k: nat, y: RegionId)
    requires k < |c| && y in c && y != c[k]
    ensures y in RemoveAt(c, k)
  {
    var j :| 0 <= j < |c| && c[j] == y;
    RemoveAtAt(c, k, if j < k then j else j - 1);
  }

  /** A live region absorbing its successor keeps the arena well-formed, the successor leaving the chain. */
  lemma ArenaAbsorb(rs: map<RegionId, Region>, blocks: map<BlockId, Block>, chains: map<BlockId, seq<RegionId>>,
                    b: BlockId, i: nat)
    requires ArenaOk(rs, blocks, chains) && b in blocks && i + 1 < |chains[b]|
    ensures chains[b][i] in rs && chains[b][i + 1] in rs && rs[chains[b][i]].next == Some(chains[b][i + 1])
    ensures ArenaOk(Absorb(rs, chains[b][i]), blocks, chains[b := RemoveAt(chains[b], i + 1)])
  {
    assert BlockOk(rs, blocks, chains, b);
    AbsorbBlocks(rs, blocks, chains, b, i);
    AbsorbOwners(rs, blocks, chains, b, i);
  }

  /** Every block of a list is a block of the arena with a well-formed chain. */
  ghost predicate Ready(rs: map<RegionId, Region>, blocks: map<BlockId, Block>,
                        chains: map<BlockId, seq<RegionId>>, list: seq<BlockId>)
  {
    forall i {:trigger BlockOk(rs, blocks, chains, list[i])} | 0 <= i < |list| :: BlockOk(rs, blocks, chains, list[i])
  }

  /** Every region a tier's walk visits is live. */
  lemma {:induction false} WalkAllIn(rs: map<RegionId, Region>, blocks: map<BlockId, Block>,
                                     chains: map<BlockId, seq<RegionId>>, list: seq<BlockId>)
    requires Ready(rs, blocks, chains, list)
    ensures forall i | 0 <= i < |list| :: list[i] in chains
    ensures AllIn(Flatten(list, chains), rs)
  {
    if list != [] {
      var p := list[..|list| - 1];
      var b := list[|list| - 1];
      assert forall i | 0 <= i < |p| :: p[i] == list[i];
      WalkAllIn(rs, blocks, chains, p);
      assert BlockOk(rs, blocks, chains, list[|list| - 1]);
      forall i | 0 <= i < |chains[b]| ensures chains[b][i] in rs {
        ChainMember(rs, b, chains[b], blocks[b].tier, i);
      }
    }
  }

  /** A tier's regions in the order the fit loops visit them: blocks in list order, each in address order. */
  ghost function Walk(rs: map<RegionId, Region>, blocks: map<BlockId, Block>,
                      chains: map<BlockId, seq<RegionId>>, list: seq<BlockId>): (w: seq<RegionId>)
    requires Ready(rs, blocks, chains, list)
    ensures AllIn(w, rs)
  {
    WalkAllIn(rs, blocks, chains, list);
    Flatten(list, chains)
  }
}
