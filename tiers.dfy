/**
 * A tier's block list (malloc.c:44-50): the blocks in list order, from the head pointer
 * along `next`, and the separately kept tail pointer. The list order is the sequence; the
 * tail pointer is stored on its own because delete_block does not always maintain it.
 */
module Tiers {
  import opened Wrappers
  import opened Regions

  /** The four link topologies delete_block distinguishes (malloc.c:314-331). */
  datatype Topology = Sole | Middle | First | Last

  function TopologyOf(list: seq<BlockId>, i: nat): Topology
    requires i < |list|
  {
    var hasPrev := i > 0;
    var hasNext := i + 1 < |list|;
    if !hasPrev && !hasNext then Sole
    else if hasPrev && hasNext then Middle
    else if !hasPrev then First
    else Last
  }

  /** The list after the unlinking step of delete_block, case by case. */
  function Unlink(list: seq<BlockId>, i: nat): seq<BlockId>
    requires i < |list|
  {
    match TopologyOf(list, i)
    case Sole => []
    case Middle => list[..i] + list[i + 1..]
    case First => list[1..]
    case Last => list[..i]
  }

  /** In every topology, unlinking removes exactly the block at position i and keeps the order. */
  lemma UnlinkRemoves(list: seq<BlockId>, i: nat)
    requires i < |list|
    ensures Unlink(list, i) == list[..i] + list[i + 1..]
  {
    match TopologyOf(list, i)
    case Sole => assert list[..i] == [] && list[i + 1..] == [];
    case Middle =>
    case First => assert list[..i] == [];
    case Last => assert list[i + 1..] == [];
  }

  /**
   * The unlinking step of delete_block as free reaches it in the source. free hands it an
   * address 40 bytes into the block (Release.DeleteAddressInGap), where the `next` and
   * `previous` it reads are bytes nothing writes. The model takes them to be zero, as a fresh
   * anonymous mapping provides them; it does not derive that. With both links null the block
   * looks like the only one of a list, so the sole-node branch runs and empties its tier's list.
   */
  function UnlinkAsWritten(list: seq<BlockId>, i: nat): seq<BlockId>
    requires i < |list|
  {
    Unlink([list[i]], 0)
  }

  /**
   * The unlinking free reaches as written drops every block of the tier, where unlinking by
   * the block's true position keeps all the others; the two differ whenever the tier has two
   * blocks or more.
   */
  lemma AsWrittenLosesBlocks(list: seq<BlockId>, i: nat)
    requires i < |list| && Distinct(list)
    ensures forall b | b in list && b != list[i] :: b in Unlink(list, i) && b !in UnlinkAsWritten(list, i)
    ensures |list| >= 2 ==> UnlinkAsWritten(list, i) != Unlink(list, i)
  {
    UnlinkDistinct(list, i);
    UnlinkAt(list, i);
  }

  /** The tail pointer names the last block of a non-empty list. */
  predicate TailSound(list: seq<BlockId>, last: Option<BlockId>)
  {
    list != [] ==> last == Some(list[|list| - 1])
  }

  predicate Distinct(list: seq<BlockId>)
  {
    forall i, j | 0 <= i < j < |list| :: list[i] != list[j]
  }

  /**
   * delete_block never writes the tail pointer: it stays sound in every topology except
   * removing the last of several blocks, which leaves it naming the dropped block.
   */
  lemma UnlinkStalesTail(list: seq<BlockId>, i: nat, last: Option<BlockId>)
    requires i < |list| && Distinct(list) && TailSound(list, last)
    ensures TailSound(Unlink(list, i), last) <==> TopologyOf(list, i) != Last
    ensures TopologyOf(list, i) == Last ==> last == Some(list[i]) && list[i] !in Unlink(list, i)
  {
    UnlinkRemoves(list, i);
    var u := Unlink(list, i);
    if TopologyOf(list, i) == Last {
      assert u[|u| - 1] == list[i - 1];
      assert list[i] !in u by {
        forall k | 0 <= k < |u| ensures u[k] != list[i] {
          assert u[k] == list[k];
        }
      }
    } else if u != [] {
      assert u[|u| - 1] == list[|list| - 1];
    }
  }

  /** The position in the original list of position k of the list with position i removed. */
  function Skip(k: nat, i: nat): nat
  {
    if k < i then k else k + 1
  }

  /** Position k of the unlinked list holds the block at position Skip(k, i) of the original. */
  lemma UnlinkAt(list: seq<BlockId>, i: nat)
    requires i < |list|
    ensures |Unlink(list, i)| == |list| - 1
    ensures forall k | 0 <= k < |Unlink(list, i)| :: Unlink(list, i)[k] == list[Skip(k, i)]
  {
    UnlinkRemoves(list, i);
  }

  /** The distinctness of a list survives unlinking one of its blocks. */
  lemma UnlinkDistinct(list: seq<BlockId>, i: nat)
    requires i < |list| && Distinct(list)
    ensures Distinct(Unlink(list, i))
    ensures forall b :: b in Unlink(list, i) <==> b in list && b != list[i]
  {
    UnlinkAt(list, i);
    var u := Unlink(list, i);
    forall a, c | 0 <= a < c < |u| ensures u[a] != u[c] {
      assert u[a] == list[Skip(a, i)] && u[c] == list[Skip(c, i)];
    }
    forall b ensures b in u <==> b in list && b != list[i] {
      if b in u {
        var k :| 0 <= k < |u| && u[k] == b;
        assert list[Skip(k, i)] == b;
      }
      if b in list && b != list[i] {
        var k :| 0 <= k < |list| && list[k] == b;
        if k < i { assert u[k] == b; } else { assert u[k - 1] == b; }
      }
    }
  }
}
