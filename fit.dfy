/**
 * The two search policies of malloc.c:62-106 as specifications over a tier's regions in
 * block-then-address order: first-fit (the first free region large enough) and best-fit
 * (the free region of least slack, ties to the earliest). Both are folds from the left,
 * in the order the source's nested loops visit the regions.
 */
module Fit {
  import opened Wrappers
  import opened Regions

  /** A tier's regions in visiting order: each block's chain, blocks in list order. */
  function Flatten(bs: seq<BlockId>, chains: map<BlockId, seq<RegionId>>): seq<RegionId>
    requires forall i | 0 <= i < |bs| :: bs[i] in chains
  {
    if bs == [] then [] else Flatten(bs[..|bs| - 1], chains) + chains[bs[|bs| - 1]]
  }

  lemma {:induction false} FlattenPrefix(bs: seq<BlockId>, chains: map<BlockId, seq<RegionId>>, i: nat)
    requires forall k | 0 <= k < |bs| :: bs[k] in chains
    requires i <= |bs|
    ensures Flatten(bs[..i], chains) <= Flatten(bs, chains)
  {
    if i < |bs| {
      var p := bs[..|bs| - 1];
      assert p[..i] == bs[..i];
      FlattenPrefix(p, chains, i);
    } else {
      assert bs[..i] == bs;
    }
  }

  lemma FlattenStep(bs: seq<BlockId>, chains: map<BlockId, seq<RegionId>>, i: nat)
    requires forall k | 0 <= k < |bs| :: bs[k] in chains
    requires i < |bs|
    ensures Flatten(bs[..i + 1], chains) == Flatten(bs[..i], chains) + chains[bs[i]]
  {
    assert bs[..i + 1][..i] == bs[..i];
  }

  /** Every region of a fitting walk is in the arena. */
  ghost predicate AllIn(w: seq<RegionId>, rs: map<RegionId, Region>)
  {
    forall i | 0 <= i < |w| :: w[i] in rs
  }

  /** A region the search may hand out for n bytes: free and large enough (malloc.c:75, 97). */
  predicate Fits(r: Region, n: nat)
  {
    r.free && r.size >= n
  }

  function Slack(r: Region, n: nat): int
  {
    r.size - n
  }

  /** The region first-fit picks from the walk w, if any. */
  function FirstFit(w: seq<RegionId>, rs: map<RegionId, Region>, n: nat): (r: Option<RegionId>)
    requires AllIn(w, rs)
    ensures r.Some? ==> r.value in rs && Fits(rs[r.value], n)
  {
    if w == [] then None
    else
      var p := FirstFit(w[..|w| - 1], rs, n);
      if p.Some? then p
      else if Fits(rs[w[|w| - 1]], n) then Some(w[|w| - 1])
      else None
  }

  /**
   * First-fit returns the earliest region of the walk that fits; it returns None exactly when
   * no region fits.
   */
  lemma {:induction false} FirstFitIsFirst(w: seq<RegionId>, rs: map<RegionId, Region>, n: nat)
    requires AllIn(w, rs)
    ensures var r := FirstFit(w, rs, n);
      (r.Some? ==> exists k | 0 <= k < |w| :: w[k] == r.value && Fits(rs[w[k]], n) &&
                                              forall j | 0 <= j < k :: !Fits(rs[w[j]], n)) &&
      (r.None? <==> forall k | 0 <= k < |w| :: !Fits(rs[w[k]], n))
  {
    if w != [] {
      var p := w[..|w| - 1];
      FirstFitIsFirst(p, rs, n);
      var q := FirstFit(p, rs, n);
      if q.Some? {
        var k :| 0 <= k < |p| && p[k] == q.value && Fits(rs[p[k]], n) &&
                 forall j | 0 <= j < k :: !Fits(rs[p[j]], n);
        assert w[k] == p[k];
        assert forall j | 0 <= j < k :: w[j] == p[j];
      } else {
        assert forall k | 0 <= k < |p| :: w[k] == p[k];
        if Fits(rs[w[|w| - 1]], n) {
          assert forall j | 0 <= j < |w| - 1 :: !Fits(rs[w[j]], n);
        }
      }
    }
  }

  /** Once some prefix of the walk has a fit, later regions cannot change the choice. */
  lemma {:induction false} FirstFitSticky(a: seq<RegionId>, w: seq<RegionId>, rs: map<RegionId, Region>, n: nat)
    requires AllIn(w, rs) && a <= w
    requires FirstFit(a, rs, n).Some?
    ensures FirstFit(w, rs, n) == FirstFit(a, rs, n)
  {
    if |w| > |a| {
      var p := w[..|w| - 1];
      assert a <= p;
      FirstFitSticky(a, p, rs, n);
    } else {
      assert a == w;
    }
  }

  /**
   * Best-fit as the source's loop computes it: the current best region and its slack,
   * starting from no region and the slack bound `limit` (block size minus request).
   */
  function BestScan(w: seq<RegionId>, rs: map<RegionId, Region>, n: nat, limit: int): (p: (Option<RegionId>, int))
    requires AllIn(w, rs)
    ensures p.0.Some? ==> p.0.value in rs && Fits(rs[p.0.value], n) && Slack(rs[p.0.value], n) == p.1
    ensures p.1 <= limit && (p.0.Some? ==> p.1 < limit)
  {
    if w == [] then (None, limit)
    else
      var p := BestScan(w[..|w| - 1], rs, n, limit);
      var x := w[|w| - 1];
      if Fits(rs[x], n) && Slack(rs[x], n) < p.1 then (Some(x), Slack(rs[x], n)) else p
  }

  /** The region best-fit picks from the walk w, if any. */
  function BestFit(w: seq<RegionId>, rs: map<RegionId, Region>, n: nat, limit: int): (r: Option<RegionId>)
    requires AllIn(w, rs)
    ensures r.Some? ==> r.value in rs && Fits(rs[r.value], n) && Slack(rs[r.value], n) < limit
  {
    BestScan(w, rs, n, limit).0
  }

  /**
   * Best-fit returns a fitting region of least slack below the bound, and no earlier fitting
   * region has the same slack; None means no fitting region has slack below the bound.
   */
  lemma {:induction false} BestScanIsBest(w: seq<RegionId>, rs: map<RegionId, Region>, n: nat, limit: int)
    requires AllIn(w, rs)
    ensures var (r, d) := BestScan(w, rs, n, limit);
      (r.Some? ==> d < limit &&
                   (exists k | 0 <= k < |w| :: w[k] == r.value && Fits(rs[w[k]], n) && Slack(rs[w[k]], n) == d &&
                                              forall j | 0 <= j < k && Fits(rs[w[j]], n) :: Slack(rs[w[j]], n) > d) &&
                   (forall j | 0 <= j < |w| && Fits(rs[w[j]], n) :: Slack(rs[w[j]], n) >= d)) &&
      (r.None? ==> d == limit && forall j | 0 <= j < |w| && Fits(rs[w[j]], n) :: Slack(rs[w[j]], n) >= limit)
  {
    if w != [] {
      var p := w[..|w| - 1];
      var x := w[|w| - 1];
      BestScanIsBest(p, rs, n, limit);
      var (q, e) := BestScan(p, rs, n, limit);
      assert forall j | 0 <= j < |p| :: w[j] == p[j];
      if Fits(rs[x], n) && Slack(rs[x], n) < e {
        assert w[|w| - 1] == x;
      } else if q.Some? {
        var k :| 0 <= k < |p| && p[k] == q.value && Fits(rs[p[k]], n) && Slack(rs[p[k]], n) == e &&
                 forall j | 0 <= j < k && Fits(rs[p[j]], n) :: Slack(rs[p[j]], n) > e;
        assert w[k] == p[k];
      }
    }
  }

  /** Best-fit's choice, stated with the bound removed: least slack among all fits, earliest on ties. */
  lemma BestFitIsLeastSlack(w: seq<RegionId>, rs: map<RegionId, Region>, n: nat, limit: int, j: nat)
    requires AllIn(w, rs) && j < |w| && Fits(rs[w[j]], n) && Slack(rs[w[j]], n) < limit
    ensures BestFit(w, rs, n, limit).Some? && BestFit(w, rs, n, limit).value in rs
    ensures Slack(rs[BestFit(w, rs, n, limit).value], n) <= Slack(rs[w[j]], n)
  {
    BestScanIsBest(w, rs, n, limit);
    var (r, d) := BestScan(w, rs, n, limit);
    if r.Some? {
      var k :| 0 <= k < |w| && w[k] == r.value && Fits(rs[w[k]], n) && Slack(rs[w[k]], n) == d &&
               forall i | 0 <= i < k && Fits(rs[w[i]], n) :: Slack(rs[w[i]], n) > d;
    }
  }

  /** One more region visited by the first-fit loop. */
  lemma FirstFitSnoc(w: seq<RegionId>, x: RegionId, rs: map<RegionId, Region>, n: nat)
    requires AllIn(w, rs) && x in rs
    ensures AllIn(w + [x], rs)
    ensures FirstFit(w + [x], rs, n) ==
      if FirstFit(w, rs, n).Some? then FirstFit(w, rs, n) else if Fits(rs[x], n) then Some(x) else None
  {
    assert (w + [x])[..|w|] == w;
  }

  /** One more region visited by the best-fit loop. */
  lemma BestScanSnoc(w: seq<RegionId>, x: RegionId, rs: map<RegionId, Region>, n: nat, limit: int)
    requires AllIn(w, rs) && x in rs
    ensures AllIn(w + [x], rs)
    ensures BestScan(w + [x], rs, n, limit) ==
      var p := BestScan(w, rs, n, limit);
      if Fits(rs[x], n) && Slack(rs[x], n) < p.1 then (Some(x), Slack(rs[x], n)) else p
  {
    assert (w + [x])[..|w|] == w;
  }

  /** The regions visited before and including position ri of block bi are a prefix of the walk. */
  lemma WalkPrefix(bs: seq<BlockId>, chains: map<BlockId, seq<RegionId>>, bi: nat, ri: nat)
    requires forall k | 0 <= k < |bs| :: bs[k] in chains
    requires bi < |bs| && ri < |chains[bs[bi]]|
    ensures Flatten(bs[..bi], chains) + chains[bs[bi]][..ri + 1] <= Flatten(bs, chains)
  {
    FlattenStep(bs, chains, bi);
    FlattenPrefix(bs, chains, bi + 1);
    var a := Flatten(bs[..bi], chains);
    var c := chains[bs[bi]];
    assert a + c[..ri + 1] <= a + c;
  }

  /** Visiting one more region of a chain extends the visited sequence by that region. */
  lemma SnocSlice(s: seq<RegionId>, c: seq<RegionId>, i: nat)
    requires i < |c|
    ensures s + c[..i + 1] == (s + c[..i]) + [c[i]]
  {
    assert c[..i + 1] == c[..i] + [c[i]];
  }

  lemma PrefixSlice(s: seq<RegionId>, c: seq<RegionId>, i: nat)
    requires i <= |c|
    ensures s + c[..i] <= s + c
  {
    assert (s + c)[..|s| + i] == s + c[..i];
  }
}
