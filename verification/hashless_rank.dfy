/** Prefill over several ranks without prefix caching: the placement, and its admission. */
module HashlessRanks {
  import opened Basics
  import opened Chunking
  import opened HashlessSpec
  import opened HashlessProofs
  import opened HashlessAllocator
  import Placement = RankPlacement
  import Admission = RankAdmission

  function Last(objs: seq<HashLessBlockObj>): HashLessBlockObj? {
    if objs == [] then null else objs[|objs| - 1]
  }

  /** One allocator per rank, all over blocks of one size. */
  ghost predicate Ranked(allocs: seq<HashLessBlockAllocator>, blockSize: nat)
    reads set q | 0 <= q < |allocs| :: allocs[q]
    reads set q, b | 0 <= q < |allocs| && b in allocs[q].live.Values :: b
  {
    && |allocs| > 0 && blockSize > 0
    && (forall q :: 0 <= q < |allocs| ==> allocs[q].Valid() && allocs[q].cfg.blockSize == blockSize)
    && (forall p, q :: 0 <= p < q < |allocs| ==> allocs[p] != allocs[q])
  }

  /** Object `j` is chunk `j`, behind the object before it, on its rank. */
  ghost predicate PlacedAt(allocs: seq<HashLessBlockAllocator>, objs: seq<HashLessBlockObj>, tokens: seq<TokenId>,
                           blockSize: nat, n: nat, j: nat)
    requires j < |objs| && |allocs| > 0
    reads (set q | 0 <= q < |allocs| :: allocs[q]), objs
  {
    && objs[j].tokens == Chunk(tokens, blockSize, j) && objs[j].prev == Last(objs[..j])
    && allocs[Placement.RankOf(j, n, |allocs|)].Has(objs[j])
  }

  /** The first |objs| of `n` chunks are placed; every rank has spent exactly its share of the ids `avail`. */
  ghost predicate Placing(allocs: seq<HashLessBlockAllocator>, objs: seq<HashLessBlockObj>, tokens: seq<TokenId>,
                          blockSize: nat, n: nat, avail: seq<nat>)
    reads (set q | 0 <= q < |allocs| :: allocs[q]), objs
    reads set q, b | 0 <= q < |allocs| && b in allocs[q].live.Values :: b
  {
    && Ranked(allocs, blockSize) && |avail| == |allocs|
    && (forall q :: 0 <= q < |allocs| ==>
          |allocs[q].free| + Placement.Share(|objs|, n, |allocs|, q) == avail[q])
    && (forall j :: 0 <= j < |objs| ==> PlacedAt(allocs, objs, tokens, blockSize, n, j))
  }

  /** One id is spent on a new object, which holds the chunk. */
  method PlaceOn(alloc: HashLessBlockAllocator, ts: seq<TokenId>, prev: HashLessBlockObj?)
    returns (b: Result<HashLessBlockObj>)
    requires alloc.Valid() && |ts| <= alloc.cfg.blockSize
    modifies alloc
    ensures match b
      case Err(e) => e == Exhausted && old(alloc.free) == []
      case Ok(o) =>
        && alloc.Valid() && fresh(o) && o.prev == prev && o.tokens == ts && alloc.Has(o)
        && (forall a :: a in old(alloc.live) ==> a in alloc.live && alloc.live[a] == old(alloc.live)[a])
        && |alloc.free| + 1 == |old(alloc.free)|
  {
    hide Base;
    ghost var a, s := FreshAddress(alloc.live.Keys), alloc.Abs();
    b := alloc.AllocateMutableBlock(ts, prev, a);
    if b.Ok? {
      NewBlock(s, a, ts, alloc.Abs());
      assert alloc.Abs().blocks[a] == b.value.Value();
      assert b.value.address == a;
    }
  }

  lemma NewBlock(s: State, a: Obj, ts: seq<TokenId>, t: State)
    requires AllocateMutableBlock(s, a, ts) == Ok(t)
    ensures a in t.blocks && t.blocks[a].tokens == ts && |t.free| + 1 == |s.free|
  {
  }

  lemma PlacedFacts(allocs: seq<HashLessBlockAllocator>, objs: seq<HashLessBlockObj>, tokens: seq<TokenId>,
                    blockSize: nat, n: nat, j: nat)
    requires j < |objs| && |allocs| > 0 && PlacedAt(allocs, objs, tokens, blockSize, n, j)
    ensures Placement.RankOf(j, n, |allocs|) < |allocs| && allocs[Placement.RankOf(j, n, |allocs|)].Has(objs[j])
    ensures objs[j].tokens == Chunk(tokens, blockSize, j) && objs[j].prev == Last(objs[..j])
  {
  }

  /** Places the next chunk on its rank `r`; it fails exactly if that rank has no id left. */
  method PlaceNext(allocs: seq<HashLessBlockAllocator>, objs: seq<HashLessBlockObj>, ghost tokens: seq<TokenId>,
                   ts: seq<TokenId>, r: nat, ghost blockSize: nat, ghost n: nat, ghost avail: seq<nat>)
    returns (b: Result<seq<HashLessBlockObj>>)
    requires Placing(allocs, objs, tokens, blockSize, n, avail) && |objs| < n
    requires r < |allocs| && r == Placement.RankOf(|objs|, n, |allocs|) && ts == Chunk(tokens, blockSize, |objs|)
    modifies allocs[r]
    ensures match b
      case Err(e) => e == Exhausted && |avail| == |allocs| && avail[r] < Placement.Share(n, n, |allocs|, r)
      case Ok(more) => |more| == |objs| + 1 && Placing(allocs, more, tokens, blockSize, n, avail)
  {
    hide Base, Chunk, Placement.Share, Placement.RankOf, HashLessBlockAllocator.Valid;
    ghost var ranks := |allocs|;
    forall q: nat ensures Placement.Share(|objs| + 1, n, ranks, q)
                  == Placement.Share(|objs|, n, ranks, q) + (if r == q then 1 else 0) {
      Placement.ShareNext(|objs|, n, ranks, q);
    }
    Placement.ShareGrows(|objs| + 1, n, ranks, r);
    ChunkSize(tokens, blockSize, |objs|);
    forall j | 0 <= j < |objs|
      ensures Placement.RankOf(j, n, ranks) < ranks && allocs[Placement.RankOf(j, n, ranks)].Has(objs[j])
      ensures objs[j].tokens == Chunk(tokens, blockSize, j) && objs[j].prev == Last(objs[..j])
    {
      PlacedFacts(allocs, objs, tokens, blockSize, n, j);
    }
    var p := PlaceOn(allocs[r], ts, Last(objs));
    if p.Err? {
      return Err(p.error);
    }
    var more := objs + [p.value];
    forall j | 0 <= j < |more| ensures PlacedAt(allocs, more, tokens, blockSize, n, j) {
      assert more[..j] == objs[..j];
      if j < |objs| {
        var q := Placement.RankOf(j, n, ranks);
        assert allocs[q].Has(objs[j]);
      } else {
        assert objs[..j] == objs;
      }
    }
    b := Ok(more);
  }

  lemma PlacingStarts(allocs: seq<HashLessBlockAllocator>, tokens: seq<TokenId>, blockSize: nat, n: nat,
                      avail: seq<nat>)
    requires Ranked(allocs, blockSize) && |avail| == |allocs|
    requires forall q :: 0 <= q < |allocs| ==> |allocs[q].free| == avail[q]
    ensures |allocs| > 0 && blockSize > 0 && Placing(allocs, [], tokens, blockSize, n, avail)
  {
  }

  lemma SharesCovered(allocs: seq<HashLessBlockAllocator>, objs: seq<HashLessBlockObj>, tokens: seq<TokenId>,
                      blockSize: nat, n: nat, avail: seq<nat>)
    requires Placing(allocs, objs, tokens, blockSize, n, avail) && |objs| == n && |allocs| > 0
    ensures |avail| == |allocs| && forall q :: 0 <= q < |allocs| ==> Placement.Share(n, n, |allocs|, q) <= avail[q]
  {
    hide Placement.Share;
  }

  /** Cuts `tokens` into blocks and deals them over the ranks; `last` is the rank of the last block. It fails
      exactly if some rank has less than its share of ids. */
  method AllocateSmallRankFirst(allocs: seq<HashLessBlockAllocator>, tokens: seq<TokenId>, blockSize: nat,
                                ghost avail: seq<nat>)
    returns (r: Result<seq<HashLessBlockObj>>, last: nat)
    requires Ranked(allocs, blockSize) && |avail| == |allocs|
    requires forall q :: 0 <= q < |allocs| ==> |allocs[q].free| == avail[q]
    modifies set q | 0 <= q < |allocs| :: allocs[q]
    ensures |allocs| > 0 && blockSize > 0
    ensures
      var n := CeilDiv(|tokens|, blockSize);
      && (r.Ok? <==> forall q :: 0 <= q < |allocs| ==> Placement.Share(n, n, |allocs|, q) <= avail[q])
      && match r
         case Err(e) => e == Exhausted
         case Ok(objs) =>
           && |objs| == n && Placing(allocs, objs, tokens, blockSize, n, avail)
           && (n > 0 ==> last == Placement.RankOf(n - 1, n, |allocs|))
  {
    hide *;
    ghost var n := if blockSize == 0 then 0 else CeilDiv(|tokens|, blockSize);
    PlacingStarts(allocs, tokens, blockSize, n, avail);
    var objs: seq<HashLessBlockObj>, remaining: nat, currentPos: nat, rankIdx: nat := [], |tokens|, 0, 0;
    last := 0;
    Placement.RankStarts(|tokens|, blockSize, n, |allocs|);
    Placement.CursorStarts(|tokens|, blockSize, n);
    while remaining > 0
      invariant Placing(allocs, objs, tokens, blockSize, n, avail)
      invariant Placement.Cursor(|tokens|, blockSize, n, |objs|, currentPos, remaining)
      invariant rankIdx < |allocs| && (remaining > 0 ==> rankIdx == Placement.RankOf(|objs|, n, |allocs|))
      invariant remaining == 0 && n > 0 ==> last == Placement.RankOf(n - 1, n, |allocs|)
    {
      Placement.CursorNext(tokens, blockSize, n, |objs|, currentPos, remaining);
      var count := Min(remaining, blockSize);
      var ts := tokens[currentPos..currentPos + count];
      currentPos, remaining := currentPos + count, remaining - count;
      var more := PlaceNext(allocs, objs, tokens, ts, rankIdx, blockSize, n, avail);
      if more.Err? {
        return Err(more.error), last;
      }
      objs := more.value;
      if remaining == 0 {
        last := rankIdx;
      }
      rankIdx := Placement.NextRank(rankIdx, remaining, blockSize, |objs|, |allocs|, n);
    }
    Placement.CursorEnds(|tokens|, blockSize, n, |objs|, currentPos);
    SharesCovered(allocs, objs, tokens, blockSize, n, avail);
    r := Ok(objs);
  }

  method FreeCounts(allocs: seq<HashLessBlockAllocator>) returns (counts: seq<nat>)
    ensures |counts| == |allocs| && forall q :: 0 <= q < |allocs| ==> |allocs[q].free| == counts[q]
  {
    counts := [];
    for i := 0 to |allocs|
      invariant |counts| == i && forall q :: 0 <= q < i ==> |allocs[q].free| == counts[q]
    {
      counts := counts + [allocs[i].GetNumFreeBlock()];
    }
  }

  lemma RankedFacts(allocs: seq<HashLessBlockAllocator>, blockSize: nat)
    requires Ranked(allocs, blockSize)
    ensures |allocs| > 0 && blockSize > 0
  {
  }

  /** Prefill with admission: whenever CanAllocate says OK, the placement succeeds on every rank. */
  method AdmitAndAllocate(allocs: seq<HashLessBlockAllocator>, tokens: seq<TokenId>, blockSize: nat, npu: nat,
                          reserved: nat)
    returns (status: Admission.AllocStatus, objs: seq<HashLessBlockObj>, last: nat, ghost avail: seq<nat>)
    requires Ranked(allocs, blockSize) && reserved <= npu
    modifies set q | 0 <= q < |allocs| :: allocs[q]
    ensures |allocs| > 0 && blockSize > 0
    ensures |avail| == |allocs| && forall q :: 0 <= q < |allocs| ==> |old(allocs[q].free)| == avail[q]
    ensures
      Admission.Answers(status, Admission.RequiredBlocks(|tokens|, blockSize, |allocs|), npu, reserved, avail)
    ensures status == Admission.OK ==>
      var n := CeilDiv(|tokens|, blockSize);
      |objs| == n && Placing(allocs, objs, tokens, blockSize, n, avail)
  {
    hide *;
    RankedFacts(allocs, blockSize);
    objs, last := [], 0;
    var counts := FreeCounts(allocs);
    avail := counts;
    status := Admission.CanAllocate(counts, |tokens|, blockSize, npu, reserved);
    if status == Admission.OK {
      var r;
      r, last := AllocateSmallRankFirst(allocs, tokens, blockSize, avail);
      Admission.OkIsEnough(|tokens|, blockSize, avail, npu, reserved);
      objs := r.value;
    }
  }
}
