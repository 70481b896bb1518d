/** Prefill admission and placement over several ranks. */
module RankPlacement {
  import opened Basics
  import opened Arithmetic
  import opened Chunking
  import opened PrefixChain
  import opened LruEvictor
  import opened PrefixCacheSpec
  import opened PrefixCacheSteps
  import opened PrefixCacheOperations
  import opened PrefixCacheAllocator
  import opened BlockTableSpec
  import opened BlockTableSteps
  import opened BlockTables
  import opened AppendAdmission
  import opened CacheReuse

  /** The rank of block `j` of `n`: round robin, but the last block goes to the last rank once every rank has one. */
  function RankOf(j: nat, n: nat, ranks: nat): nat
    requires ranks > 0
  {
    if j + 1 == n && j >= ranks then ranks - 1 else j % ranks
  }

  /** How many of the first `k` of `n` blocks rank `r` gets. */
  function Share(k: nat, n: nat, ranks: nat, r: nat): nat
    requires ranks > 0
  {
    if k == 0 then 0 else Share(k - 1, n, ranks, r) + (if RankOf(k - 1, n, ranks) == r then 1 else 0)
  }

  /** How many of the first `k` blocks rank `r` gets in strict turn. */
  function Dealt(k: nat, ranks: nat, r: nat): nat
    requires ranks > 0
  {
    if k == 0 then 0 else Dealt(k - 1, ranks, r) + (if (k - 1) % ranks == r then 1 else 0)
  }

  /** Only the last block may be out of turn. */
  lemma {:induction false} ShareDealt(k: nat, n: nat, ranks: nat, r: nat)
    requires ranks > 0 && (k < n || n <= ranks)
    ensures Share(k, n, ranks, r) == Dealt(k, ranks, r)
  {
    if k > 0 { ShareDealt(k - 1, n, ranks, r); }
  }

  /** Dealing over `q` full rounds and `m` more blocks. */
  lemma {:induction false} RoundRobin(k: nat, ranks: nat, r: nat, q: nat, m: nat)
    requires k == q * ranks + m && m < ranks && r < ranks
    ensures Dealt(k, ranks, r) == q + (if r < m then 1 else 0)
    decreases k
  {
    if k > 0 {
      if m > 0 {
        ModIs(k - 1, ranks, q, m - 1);
        RoundRobin(k - 1, ranks, r, q, m - 1);
      } else {
        assert q > 0 && (q - 1) * ranks + (ranks - 1) == k - 1 by { QuotientPositive(q, ranks); }
        ModIs(k - 1, ranks, q - 1, ranks - 1);
        RoundRobin(k - 1, ranks, r, q - 1, ranks - 1);
      }
    }
  }

  lemma QuotientPositive(q: nat, d: nat)
    requires q * d > 0
    ensures q > 0 && (q - 1) * d == q * d - d
  {
  }

  /** Every rank gets `(n - 1) / ranks` blocks or one more, the first and the last rank the larger number. */
  lemma SharesEven(n: nat, ranks: nat, r: nat)
    requires n > 0 && r < ranks
    ensures (n - 1) / ranks <= Share(n, n, ranks, r) <= (n - 1) / ranks + 1
    ensures n > ranks && r == ranks - 1 ==> Share(n, n, ranks, r) == (n - 1) / ranks + 1
  {
    var q, m := (n - 1) / ranks, (n - 1) % ranks;
    BlockBounds(n - 1, ranks);
    ShareDealt(n - 1, n, ranks, r);
    RoundRobin(n - 1, ranks, r, q, m);
  }

  /** Enough ids on the fullest rank are enough for every rank's share; the spare block admission asks for is not
      needed. */
  lemma ShareFits(n: nat, ranks: nat, r: nat, minFree: nat)
    requires r < ranks && n <= minFree * ranks
    ensures Share(n, n, ranks, r) <= minFree
  {
    if n > 0 {
      SharesEven(n, ranks, r);
      var q := (n - 1) / ranks;
      BlockBounds(n - 1, ranks);
      if minFree < q + 1 { Scaled(minFree, q, ranks); }
    }
  }

  /** The load admission must foresee is exact: with one id less than its share, a rank runs out. */
  lemma {:induction false} ShareGrows(k: nat, n: nat, ranks: nat, r: nat)
    requires k <= n && ranks > 0
    ensures Share(k, n, ranks, r) <= Share(n, n, ranks, r)
    decreases n - k
  {
    if k < n { ShareGrows(k + 1, n, ranks, r); }
  }

  // ---------- the chain over all ranks ----------

  lemma KnownBefore(tokens: seq<TokenId>, p: nat)
    requires Suffixed(tokens) && p < |tokens| && tokens[p] != PLACEHOLDER_TOKEN
    ensures PLACEHOLDER_TOKEN !in tokens[..p]
  {
  }

  /** The next chunk may be placed behind what is there, on whatever rank. */
  lemma MayPlaceChunk(s: State, a: Obj, c: Chain, tokens: seq<TokenId>, k: nat, extra: HashValue)
    requires Inv(s) && a !in s.blocks && Suffixed(tokens) && c == SeqChain(tokens, s.cfg.blockSize, extra, k)
    ensures MayPlace(s, a, c, Chunk(tokens, s.cfg.blockSize, k), extra)
  {
    var bs := s.cfg.blockSize;
    var ts := Chunk(tokens, bs, k);
    ChunkSize(tokens, bs, k);
    ChunkSuffixed(tokens, bs, k);
    if Known(ts) != [] {
      KnownFirst(ts);
      ChunkAt(tokens, bs, k, 0);
      KnownBefore(tokens, k * bs);
      SeqChainReady(tokens, bs, extra, k);
    }
  }

  // ---------- placing ----------

  /** No two ranks share an allocator, an evictor or a block object. */
  ghost predicate Separate(allocs: seq<PrefixCacheBlockAllocator>)
    reads set q | 0 <= q < |allocs| :: allocs[q]
  {
    forall p, q :: 0 <= p < |allocs| && 0 <= q < |allocs| && p != q ==> SeparatePair(allocs[p], allocs[q])
  }

  ghost predicate SeparatePair(a: PrefixCacheBlockAllocator, b: PrefixCacheBlockAllocator)
    reads a, b
  {
    a != b && a.evictor != b.evictor && a.live.Values !! b.live.Values
  }

  ghost function LivesOf(allocs: seq<PrefixCacheBlockAllocator>): (lives: seq<map<Obj, BlockObj>>)
    reads set q | 0 <= q < |allocs| :: allocs[q]
    ensures |lives| == |allocs| && forall q :: 0 <= q < |allocs| ==> lives[q] == allocs[q].live
  {
    if allocs == [] then [] else LivesOf(allocs[..|allocs| - 1]) + [allocs[|allocs| - 1].live]
  }

  /** The maps of live objects do not meet. */
  ghost predicate Disjoint(lives: seq<map<Obj, BlockObj>>) {
    forall p, q :: 0 <= p < |lives| && 0 <= q < |lives| && p != q ==> lives[p].Values !! lives[q].Values
  }

  lemma LivesApart(allocs: seq<PrefixCacheBlockAllocator>)
    requires Separate(allocs)
    ensures Disjoint(LivesOf(allocs))
    ensures forall p, q :: 0 <= p < |allocs| && 0 <= q < |allocs| && p != q ==>
      allocs[p] != allocs[q] && allocs[p].evictor != allocs[q].evictor
  {
    forall p, q | 0 <= p < |allocs| && 0 <= q < |allocs| && p != q
      ensures LivesOf(allocs)[p].Values !! LivesOf(allocs)[q].Values
    {
      assert SeparatePair(allocs[p], allocs[q]);
    }
  }

  /** At most rank `c` has new objects, and those are nobody's. */
  lemma SeparateStill(allocs: seq<PrefixCacheBlockAllocator>, c: nat, lives: seq<map<Obj, BlockObj>>)
    requires |lives| == |allocs| && c < |allocs| && Disjoint(lives)
    requires forall p, q :: 0 <= p < |allocs| && 0 <= q < |allocs| && p != q ==>
      allocs[p] != allocs[q] && allocs[p].evictor != allocs[q].evictor
    requires forall q :: 0 <= q < |allocs| && q != c ==> allocs[q].live == lives[q]
    requires forall b :: b in allocs[c].live.Values && b !in lives[c].Values ==>
      forall q :: 0 <= q < |allocs| ==> b !in lives[q].Values
    ensures Separate(allocs)
  {
    forall p, q | 0 <= p < |allocs| && 0 <= q < |allocs| && p != q ensures SeparatePair(allocs[p], allocs[q]) {
      assert lives[p].Values !! lives[q].Values;
      if p == c || q == c {
        var o := if p == c then q else p;
        assert lives[c].Values !! lives[o].Values;
        forall b | b in allocs[c].live.Values ensures b !in allocs[o].live.Values {}
      }
    }
  }

  /** One allocator per rank, all over the same kind of blocks. */
  ghost predicate Ranked(allocs: seq<PrefixCacheBlockAllocator>, blockSize: nat, mix: Mixer)
    reads (set q | 0 <= q < |allocs| :: allocs[q]), (set q | 0 <= q < |allocs| :: allocs[q].evictor)
    reads set q, b | 0 <= q < |allocs| && b in allocs[q].live.Values :: b
  {
    && |allocs| > 0 && blockSize > 0 && CollisionFree(mix)
    && (forall q :: 0 <= q < |allocs| ==>
      allocs[q].Valid() && allocs[q].cfg.blockSize == blockSize && allocs[q].cfg.mix == mix)
    && Separate(allocs)
  }

  method PlaceOn(alloc: PrefixCacheBlockAllocator, ghost tokens: seq<TokenId>, ghost k: nat, ts: seq<TokenId>,
                 prev: BlockObj?, extra: HashValue) returns (b: Result<BlockObj>)
    requires alloc.Valid() && CollisionFree(alloc.cfg.mix)
    requires Suffixed(tokens) && Behind(prev) == SeqChain(tokens, alloc.cfg.blockSize, extra, k)
    requires ts == Chunk(tokens, alloc.cfg.blockSize, k)
    modifies alloc, alloc.evictor
    ensures match b
      case Err(e) => e == Exhausted && Refused(old(alloc.Abs()), Block(old(Behind(prev)), ts, extra, 0))
      case Ok(o) =>
        && PlacedAs(old(alloc.Abs()), alloc.Abs(), o.address, Block(old(Behind(prev)), ts, extra, 0))
        && alloc.Valid() && fresh(o) && o.prev == prev && o.address !in old(alloc.live)
        && o.address in alloc.live && alloc.live == old(alloc.live)[o.address := o]
        && o.tokens == ts && Behind(o) == SeqChain(tokens, alloc.cfg.blockSize, extra, k + 1)
        && (|ts| < alloc.cfg.blockSize ==> WritableNow(alloc, o))
        && Extends(old(alloc.live), alloc.live)
        && Available(alloc.Abs()) >= Available(old(alloc.Abs())) - 1
  {
    hide *;
    ghost var s, before, live := alloc.Abs(), Behind(prev), alloc.live;
    ghost var a := FreshAddress(alloc.live.Keys);
    NotLive(alloc, a);
    MayPlaceChunk(s, a, before, tokens, k, extra);
    b := AllocateBlock(alloc, ts, prev, extra, a);
    if b.Ok? {
      Placed(alloc, b.value, live, a, s, before, tokens, k, extra);
    }
  }

  /** The object is live, its block not shareable and nobody else's. */
  ghost predicate WritableNow(alloc: PrefixCacheBlockAllocator, b: BlockObj)
    reads alloc, alloc.evictor, alloc.live.Values
  {
    alloc.Has(b) && Writable(alloc.Abs(), b.address)
  }

  /** The last object, unless it is full, can take tokens. */
  ghost predicate LastOpen(alloc: PrefixCacheBlockAllocator, objs: seq<BlockObj>)
    reads alloc, alloc.evictor, alloc.live.Values, objs
  {
    objs != [] && |objs[|objs| - 1].tokens| < alloc.cfg.blockSize ==> WritableNow(alloc, objs[|objs| - 1])
  }

  lemma LastOpenIs(alloc: PrefixCacheBlockAllocator, objs: seq<BlockObj>, b: BlockObj, ts: seq<TokenId>)
    requires b.tokens == ts && (|ts| < alloc.cfg.blockSize ==> WritableNow(alloc, b))
    ensures LastOpen(alloc, objs + [b])
  {
  }

  lemma NotLive(alloc: PrefixCacheBlockAllocator, a: Obj)
    requires alloc.Valid() && a !in alloc.live
    ensures a !in alloc.Abs().blocks && Inv(alloc.Abs()) && alloc.Abs().cfg == alloc.cfg
  {
    assert alloc.Blocks().Keys == alloc.live.Keys;
  }

  lemma LiveFacts(alloc: PrefixCacheBlockAllocator)
    requires alloc.Valid()
    ensures alloc.Abs().blocks.Keys == alloc.live.Keys && Inv(alloc.Abs()) && alloc.Abs().cfg == alloc.cfg
  {
    assert alloc.Blocks().Keys == alloc.live.Keys;
  }

  /** The new object is what was placed, and its chain is one chunk longer. */
  lemma Placed(alloc: PrefixCacheBlockAllocator, b: BlockObj, live: map<Obj, BlockObj>, a: Obj, s: State, before: Chain,
               tokens: seq<TokenId>, k: nat, extra: HashValue)
    requires alloc.Valid() && a !in live && alloc.live == live[a := b]
    requires before == SeqChain(tokens, alloc.cfg.blockSize, extra, k)
    requires PlacedAs(s, alloc.Abs(), a, Block(before, Chunk(tokens, alloc.cfg.blockSize, k), extra, 0))
    ensures b.address == a && b.tokens == Chunk(tokens, alloc.cfg.blockSize, k)
    ensures Behind(b) == SeqChain(tokens, alloc.cfg.blockSize, extra, k + 1)
    ensures Extends(live, alloc.live) && Available(alloc.Abs()) >= Available(s) - 1
    ensures |b.tokens| < alloc.cfg.blockSize ==> WritableNow(alloc, b)
  {
    assert alloc.Abs().blocks[a] == b.Value();
  }

  /** Object `j` is chunk `j`, behind the chain of all before it, on its rank. */
  ghost predicate PlacedAt(allocs: seq<PrefixCacheBlockAllocator>, objs: seq<BlockObj>, tokens: seq<TokenId>,
                           extra: HashValue, blockSize: nat, n: nat, j: nat)
    requires j < |objs| && |allocs| > 0
    reads (set q | 0 <= q < |allocs| :: allocs[q]), objs
  {
    && objs[j].Chain() == SeqChain(tokens, blockSize, extra, j + 1) && objs[j].prev == Last(objs[..j])
    && AreIn(allocs[RankOf(j, n, |allocs|)].live, [objs[j]])
  }

  /** What rank `q` gets of a list dealt over the ranks: the beginning `xs` of a list of `n`. */
  function OnRank<T>(xs: seq<T>, n: nat, ranks: nat, q: nat): seq<T>
    requires ranks > 0
  {
    if xs == [] then []
    else
      var k := |xs| - 1;
      OnRank(xs[..k], n, ranks, q) + (if RankOf(k, n, ranks) == q then [xs[k]] else [])
  }

  lemma OnRankNext<T>(xs: seq<T>, x: T, n: nat, ranks: nat, q: nat)
    requires ranks > 0
    ensures OnRank(xs + [x], n, ranks, q)
         == if RankOf(|xs|, n, ranks) == q then OnRank(xs, n, ranks, q) + [x] else OnRank(xs, n, ranks, q)
  {
    assert (xs + [x])[..|xs|] == xs;
  }

  lemma {:induction false} OnRankSize<T>(xs: seq<T>, n: nat, ranks: nat, q: nat)
    requires ranks > 0
    ensures |OnRank(xs, n, ranks, q)| == Share(|xs|, n, ranks, q)
    ensures forall x :: x in OnRank(xs, n, ranks, q) ==> x in xs
  {
    if xs != [] { OnRankSize(xs[..|xs| - 1], n, ranks, q); }
  }

  /** What a rank gets next continues what it has. */
  lemma {:induction false} OnRankGrows<T>(xs: seq<T>, k: nat, n: nat, ranks: nat, q: nat)
    requires ranks > 0 && k <= |xs|
    ensures OnRank(xs[..k], n, ranks, q) <= OnRank(xs, n, ranks, q)
    decreases |xs|
  {
    if k < |xs| {
      OnRankGrows(xs[..|xs| - 1], k, n, ranks, q);
      assert xs[..|xs| - 1][..k] == xs[..k];
    } else {
      assert xs[..k] == xs;
    }
  }

  lemma {:induction false} OnRankApart(hs: seq<HashValue>, n: nat, ranks: nat, q: nat)
    requires ranks > 0 && HashesDiffer(hs)
    ensures HashesDiffer(OnRank(hs, n, ranks, q))
  {
    if hs != [] {
      var k := |hs| - 1;
      var mine := OnRank(hs[..k], n, ranks, q);
      OnRankApart(hs[..k], n, ranks, q);
      OnRankSize(hs[..k], n, ranks, q);
      forall j | 0 <= j < |mine| && mine[j] == hs[k] ensures mine[j] == INVALID_HASH_VALUE {
        assert mine[j] in hs[..k];
        var i :| 0 <= i < k && hs[..k][i] == mine[j];
        assert hs[i] == hs[k];
      }
    }
  }

  /** Rank `q`, starting from `start`, has placed its part of the objects, using its cache for them. */
  ghost predicate RankReused(start: State, now: State, objs: seq<Obj>, hs: seq<HashValue>, ranks: nat, q: nat)
    requires ranks > 0
  {
    && |objs| <= |hs| && Inv(start)
    && Reused(start, now, OnRank(objs, |hs|, ranks, q), OnRank(hs[..|objs|], |hs|, ranks, q))
  }

  lemma RankReusedNext(start: State, s: State, t: State, objs: seq<Obj>, hs: seq<HashValue>, ranks: nat, r: nat, a: Obj,
                       b: Block)
    requires ranks > 0 && HashesDiffer(hs) && |objs| < |hs| && RankReused(start, s, objs, hs, ranks, r)
    requires RankOf(|objs|, |hs|, ranks) == r && Inv(s) && a !in s.blocks && PlacedAs(s, t, a, b)
    requires hs[|objs|] == HashOf(s.cfg, b)
    ensures RankReused(start, t, objs + [a], hs, ranks, r)
  {
    hide Inv, Reused, HashOf, PlacedAs, OnRank, HashesDiffer;
    var k := |objs|;
    assert hs[..k + 1] == hs[..k] + [hs[k]];
    OnRankNext(objs, a, |hs|, ranks, r);
    OnRankNext(hs[..k], hs[k], |hs|, ranks, r);
    FirstDiffer(hs, k + 1);
    OnRankApart(hs[..k + 1], |hs|, ranks, r);
    ReusedNext(start, s, OnRank(objs, |hs|, ranks, r), OnRank(hs[..k], |hs|, ranks, r), t, a, b);
  }

  lemma FirstDiffer(hs: seq<HashValue>, k: nat)
    requires HashesDiffer(hs) && k <= |hs|
    ensures HashesDiffer(hs[..k])
  {
  }

  lemma RankReusedOther(start: State, s: State, objs: seq<Obj>, hs: seq<HashValue>, ranks: nat, q: nat, a: Obj)
    requires ranks > 0 && |objs| < |hs| && RankReused(start, s, objs, hs, ranks, q)
    requires RankOf(|objs|, |hs|, ranks) != q
    ensures RankReused(start, s, objs + [a], hs, ranks, q)
  {
    hide Inv, Reused, OnRank;
    var k := |objs|;
    assert hs[..k + 1] == hs[..k] + [hs[k]];
    OnRankNext(objs, a, |hs|, ranks, q);
    OnRankNext(hs[..k], hs[k], |hs|, ranks, q);
  }

  /** The rank's ids do not cover the chunks of its part whose content nobody uses. */
  ghost predicate TooFew(start: State, hs: seq<HashValue>, ranks: nat, r: nat)
    requires ranks > 0
  {
    Available(start) < Uncovered(start, OnRank(hs, |hs|, ranks, r)) <= Share(|hs|, |hs|, ranks, r)
  }

  /** A rank with nothing left for a block that is not cached started with too little for its part. */
  lemma RankFails(start: State, s: State, objs: seq<Obj>, hs: seq<HashValue>, ranks: nat, r: nat, b: Block)
    requires ranks > 0 && HashesDiffer(hs) && |objs| < |hs| && RankReused(start, s, objs, hs, ranks, r)
    requires RankOf(|objs|, |hs|, ranks) == r && Inv(s) && Refused(s, b) && hs[|objs|] == HashOf(s.cfg, b)
    ensures TooFew(start, hs, ranks, r)
  {
    hide Inv, HashOf, OnRank, HashesDiffer, Uncovered, Available;
    var k, n := |objs|, |hs|;
    var mine := OnRank(hs, n, ranks, r);
    var m := |OnRank(hs[..k], n, ranks, r)|;
    OnRankNext(hs[..k], hs[k], n, ranks, r);
    assert hs[..k + 1] == hs[..k] + [hs[k]];
    OnRankGrows(hs, k + 1, n, ranks, r);
    assert mine[..m] == OnRank(hs[..k], n, ranks, r) && mine[m] == hs[k];
    OnRankApart(hs, n, ranks, r);
    OnRankSize(hs, n, ranks, r);
    UncoveredBound(start, mine);
    RefusedFails(start, s, OnRank(objs, n, ranks, r), mine, m, b);
  }

  lemma RankReusedNone(s: State, hs: seq<HashValue>, ranks: nat, q: nat)
    requires ranks > 0 && Inv(s)
    ensures RankReused(s, s, [], hs, ranks, q)
  {
    ReusedNone(s);
  }

  /** The first |objs| of `n` chunks are placed; no rank has spent more than its share of the ids it had in its state
      in `starts`, nor any for chunks whose content was in use there. */
  ghost predicate Placing(allocs: seq<PrefixCacheBlockAllocator>, objs: seq<BlockObj>, tokens: seq<TokenId>,
                          extra: HashValue, blockSize: nat, mix: Mixer, n: nat, starts: seq<State>)
    reads (set q | 0 <= q < |allocs| :: allocs[q]), (set q | 0 <= q < |allocs| :: allocs[q].evictor), objs
    reads set q, b | 0 <= q < |allocs| && b in allocs[q].live.Values :: b
  {
    && Ranked(allocs, blockSize, mix) && |starts| == |allocs| && Suffixed(tokens)
    && (forall q :: 0 <= q < |allocs| ==>
          Available(allocs[q].Abs()) + Share(|objs|, n, |allocs|, q) >= Available(starts[q]))
    && (forall q :: 0 <= q < |allocs| ==>
          RankReused(starts[q], allocs[q].Abs(), Addresses(objs), SeqHashes(mix, blockSize, tokens, extra, n),
                     |allocs|, q))
    && Behind(Last(objs)) == SeqChain(tokens, blockSize, extra, |objs|)
    && (forall j :: 0 <= j < |objs| ==> PlacedAt(allocs, objs, tokens, extra, blockSize, n, j))
  }

  lemma PlacingFacts(allocs: seq<PrefixCacheBlockAllocator>, objs: seq<BlockObj>, tokens: seq<TokenId>,
                     extra: HashValue, blockSize: nat, mix: Mixer, n: nat, starts: seq<State>)
    requires Placing(allocs, objs, tokens, extra, blockSize, mix, n, starts)
    ensures |starts| == |allocs| > 0 && blockSize > 0 && CollisionFree(mix) && Suffixed(tokens)
    ensures forall q :: 0 <= q < |allocs| ==>
      allocs[q].Valid() && allocs[q].cfg.blockSize == blockSize && allocs[q].cfg.mix == mix
    ensures Separate(allocs)
    ensures forall q :: 0 <= q < |allocs| ==>
      Available(allocs[q].Abs()) + Share(|objs|, n, |allocs|, q) >= Available(starts[q])
    ensures forall q :: 0 <= q < |allocs| ==>
      RankReused(starts[q], allocs[q].Abs(), Addresses(objs), SeqHashes(mix, blockSize, tokens, extra, n), |allocs|, q)
    ensures Behind(Last(objs)) == SeqChain(tokens, blockSize, extra, |objs|) && |Addresses(objs)| == |objs|
    ensures forall j :: 0 <= j < |objs| ==> PlacedAt(allocs, objs, tokens, extra, blockSize, n, j)
  {
  }

  lemma PlacingNext(allocs: seq<PrefixCacheBlockAllocator>, objs: seq<BlockObj>, b: BlockObj, tokens: seq<TokenId>,
                    extra: HashValue, blockSize: nat, mix: Mixer, n: nat, starts: seq<State>)
    requires |starts| == |allocs| > 0 && blockSize > 0 && CollisionFree(mix) && Suffixed(tokens)
    requires forall q :: 0 <= q < |allocs| ==>
      allocs[q].Valid() && allocs[q].cfg.blockSize == blockSize && allocs[q].cfg.mix == mix
    requires Separate(allocs)
    requires forall q :: 0 <= q < |allocs| ==>
      Available(allocs[q].Abs()) + Share(|objs|, n, |allocs|, q)
        + (if q == RankOf(|objs|, n, |allocs|) then 1 else 0) >= Available(starts[q])
    requires forall q :: 0 <= q < |allocs| ==>
      RankReused(starts[q], allocs[q].Abs(), Addresses(objs + [b]), SeqHashes(mix, blockSize, tokens, extra, n),
                 |allocs|, q)
    requires Behind(b) == SeqChain(tokens, blockSize, extra, |objs| + 1)
    requires forall j :: 0 <= j < |objs| ==> PlacedAt(allocs, objs, tokens, extra, blockSize, n, j)
    requires b.prev == Last(objs)
    requires b.address in allocs[RankOf(|objs|, n, |allocs|)].live
      && allocs[RankOf(|objs|, n, |allocs|)].live[b.address] == b
    ensures Placing(allocs, objs + [b], tokens, extra, blockSize, mix, n, starts)
  {
    hide Ranked, RankReused, PlacedAt, Separate, SeqHashes, SeqChain, Available, Share, Suffixed, RankOf, Chunk,
      CollisionFree, PrefixCacheBlockAllocator.Valid, Addresses, Behind;
    var more := objs + [b];
    RankedIs(allocs, blockSize, mix);
    AllPlacedNext(allocs, objs, b, tokens, extra, blockSize, n);
    LastIs(objs, b);
    assert |more| == |objs| + 1;
    forall q | 0 <= q < |allocs|
      ensures Available(allocs[q].Abs()) + Share(|more|, n, |allocs|, q) >= Available(starts[q])
    {
      ShareNext(|objs|, n, |allocs|, q);
    }
  }

  lemma RankedIs(allocs: seq<PrefixCacheBlockAllocator>, blockSize: nat, mix: Mixer)
    requires |allocs| > 0 && blockSize > 0 && CollisionFree(mix)
    requires forall q :: 0 <= q < |allocs| ==>
      allocs[q].Valid() && allocs[q].cfg.blockSize == blockSize && allocs[q].cfg.mix == mix
    requires Separate(allocs)
    ensures Ranked(allocs, blockSize, mix)
  {
    hide PrefixCacheBlockAllocator.Valid, CollisionFree, Separate;
  }

  lemma AllPlacedNext(allocs: seq<PrefixCacheBlockAllocator>, objs: seq<BlockObj>, b: BlockObj, tokens: seq<TokenId>,
                      extra: HashValue, blockSize: nat, n: nat)
    requires |allocs| > 0 && forall j :: 0 <= j < |objs| ==> PlacedAt(allocs, objs, tokens, extra, blockSize, n, j)
    requires Behind(b) == SeqChain(tokens, blockSize, extra, |objs| + 1) && b.prev == Last(objs)
    requires b.address in allocs[RankOf(|objs|, n, |allocs|)].live
      && allocs[RankOf(|objs|, n, |allocs|)].live[b.address] == b
    ensures forall j :: 0 <= j < |objs| + 1 ==> PlacedAt(allocs, objs + [b], tokens, extra, blockSize, n, j)
  {
    hide RankOf, SeqChain;
    var more := objs + [b];
    forall j | 0 <= j < |more| ensures PlacedAt(allocs, more, tokens, extra, blockSize, n, j) {
      assert more[..j] == objs[..j];
      if j < |objs| {
        assert PlacedAt(allocs, objs, tokens, extra, blockSize, n, j);
      } else {
        assert objs[..j] == objs;
      }
    }
  }

  /** Objects placed before stay where they are. */
  lemma PlacedStill(allocs: seq<PrefixCacheBlockAllocator>, objs: seq<BlockObj>, tokens: seq<TokenId>,
                    extra: HashValue, blockSize: nat, n: nat, j: nat, live: map<Obj, BlockObj>)
    requires j < |objs| && |allocs| > 0
    requires objs[j].Chain() == SeqChain(tokens, blockSize, extra, j + 1) && objs[j].prev == Last(objs[..j])
    requires AreIn(live, [objs[j]]) && Extends(live, allocs[RankOf(j, n, |allocs|)].live)
    ensures PlacedAt(allocs, objs, tokens, extra, blockSize, n, j)
  {
    assert [objs[j]][0] == objs[j];
  }

  lemma PlacedFacts(allocs: seq<PrefixCacheBlockAllocator>, objs: seq<BlockObj>, tokens: seq<TokenId>,
                    extra: HashValue, blockSize: nat, n: nat, j: nat)
    requires j < |objs| && |allocs| > 0 && PlacedAt(allocs, objs, tokens, extra, blockSize, n, j)
    ensures objs[j].Chain() == SeqChain(tokens, blockSize, extra, j + 1) && objs[j].prev == Last(objs[..j])
    ensures objs[j].tokens == Chunk(tokens, blockSize, j)
    ensures RankOf(j, n, |allocs|) < |allocs| && AreIn(allocs[RankOf(j, n, |allocs|)].live, [objs[j]])
  {
  }

  /** Places the next chunk on its rank `r`; it fails only if that rank's ids fall short of what its part needs. */
  method PlaceNext(allocs: seq<PrefixCacheBlockAllocator>, objs: seq<BlockObj>, ghost tokens: seq<TokenId>,
                   ts: seq<TokenId>, extra: HashValue, r: nat, ghost blockSize: nat, ghost mix: Mixer, ghost n: nat,
                   ghost starts: seq<State>)
    returns (b: Result<seq<BlockObj>>)
    requires Placing(allocs, objs, tokens, extra, blockSize, mix, n, starts) && |objs| < n
    requires r < |allocs| && r == RankOf(|objs|, n, |allocs|) && ts == Chunk(tokens, blockSize, |objs|)
    modifies allocs[r], allocs[r].evictor
    ensures match b
      case Err(e) =>
        e == Exhausted && |starts| == |allocs|
        && TooFew(starts[r], SeqHashes(mix, blockSize, tokens, extra, n), |allocs|, r)
      case Ok(more) =>
        && |more| == |objs| + 1 && Placing(allocs, more, tokens, extra, blockSize, mix, n, starts)
        && LastOpen(allocs[r], more)
  {
    hide *;
    PlacingFacts(allocs, objs, tokens, extra, blockSize, mix, n, starts);
    ShareNext(|objs|, n, |allocs|, r);
    ghost var hs := SeqHashes(mix, blockSize, tokens, extra, n);
    ghost var before := Behind(Last(objs));
    NextSeqHash(mix, blockSize, tokens, extra, n, |objs|, Block(before, ts, extra, 0));
    SeqHashesApart(mix, blockSize, tokens, extra, n);
    ghost var lives := LivesOf(allocs);
    LivesApart(allocs);
    ghost var states := StatesOf(allocs);
    forall j | 0 <= j < |objs|
      ensures objs[j].Chain() == SeqChain(tokens, blockSize, extra, j + 1) && objs[j].prev == Last(objs[..j])
      ensures RankOf(j, n, |allocs|) < |allocs| && AreIn(lives[RankOf(j, n, |allocs|)], [objs[j]])
    {
      PlacedFacts(allocs, objs, tokens, extra, blockSize, n, j);
    }
    LiveFacts(allocs[r]);
    var p := PlaceOn(allocs[r], tokens, |objs|, ts, Last(objs), extra);
    if p.Err? {
      RankFails(starts[r], states[r], Addresses(objs), hs, |allocs|, r, Block(before, ts, extra, 0));
      return Err(p.error);
    }
    SeparateStill(allocs, r, lives);
    forall j | 0 <= j < |objs| ensures PlacedAt(allocs, objs, tokens, extra, blockSize, n, j) {
      var q := RankOf(j, n, |allocs|);
      ExtendsSelf(lives[q]);
      PlacedStill(allocs, objs, tokens, extra, blockSize, n, j, lives[q]);
    }
    Push(objs, p.value);
    forall q | 0 <= q < |allocs|
      ensures RankReused(starts[q], allocs[q].Abs(), Addresses(objs + [p.value]), hs, |allocs|, q)
    {
      if q == r {
        RankReusedNext(starts[r], states[r], allocs[r].Abs(), Addresses(objs), hs, |allocs|, r, p.value.address,
                       Block(before, ts, extra, 0));
      } else {
        assert allocs[q].Abs() == states[q];
        RankReusedOther(starts[q], states[q], Addresses(objs), hs, |allocs|, q, p.value.address);
      }
    }
    PlacingNext(allocs, objs, p.value, tokens, extra, blockSize, mix, n, starts);
    LastOpenIs(allocs[r], objs, p.value, ts);
    b := Ok(objs + [p.value]);
  }

  ghost predicate SomeTooFew(starts: seq<State>, hs: seq<HashValue>) {
    exists q :: 0 <= q < |starts| && TooFew(starts[q], hs, |starts|, q)
  }

  lemma ShortOne(starts: seq<State>, hs: seq<HashValue>, q: nat)
    requires q < |starts| && TooFew(starts[q], hs, |starts|, q)
    ensures SomeTooFew(starts, hs)
  {
  }

  /** Where all chunks are placed, no rank had too few ids. */
  lemma PlacedNotTooFew(allocs: seq<PrefixCacheBlockAllocator>, objs: seq<BlockObj>, tokens: seq<TokenId>,
                        extra: HashValue, blockSize: nat, mix: Mixer, starts: seq<State>)
    requires Placing(allocs, objs, tokens, extra, blockSize, mix, |objs|, starts)
    ensures !SomeTooFew(starts, SeqHashes(mix, blockSize, tokens, extra, |objs|))
  {
    hide Inv, Available, Uncovered, OnRank, PlacedAt, SeqHashes, Ranked, SeqChain;
    var hs := SeqHashes(mix, blockSize, tokens, extra, |objs|);
    assert hs[..|objs|] == hs && |Addresses(objs)| == |objs|;
    forall q | 0 <= q < |starts| ensures !TooFew(starts[q], hs, |starts|, q) {
      assert RankReused(starts[q], allocs[q].Abs(), Addresses(objs), hs, |allocs|, q);
    }
  }

  ghost function StatesOf(allocs: seq<PrefixCacheBlockAllocator>): (states: seq<State>)
    reads (set q | 0 <= q < |allocs| :: allocs[q]), (set q | 0 <= q < |allocs| :: allocs[q].evictor)
    reads set q, b | 0 <= q < |allocs| && b in allocs[q].live.Values :: b
    ensures |states| == |allocs| && forall q :: 0 <= q < |allocs| ==> states[q] == allocs[q].Abs()
  {
    if allocs == [] then [] else StatesOf(allocs[..|allocs| - 1]) + [allocs[|allocs| - 1].Abs()]
  }

  lemma NextSeqHash(mix: Mixer, size: nat, tokens: seq<TokenId>, extra: HashValue, n: nat, k: nat, b: Block)
    requires k < n && b == Block(SeqChain(tokens, size, extra, k), Chunk(tokens, size, k), extra, 0)
    ensures forall cfg: Config :: cfg.mix == mix && cfg.blockSize == size ==>
      SeqHashes(mix, size, tokens, extra, n)[k] == HashOf(cfg, b)
  {
  }

  lemma ShareNext(k: nat, n: nat, ranks: nat, r: nat)
    requires ranks > 0
    ensures Share(k + 1, n, ranks, r) == Share(k, n, ranks, r) + (if RankOf(k, n, ranks) == r then 1 else 0)
  {
  }

  /** The loop's arithmetic: after `k` of `n` blocks, where the next one starts and whether it is the last. */
  lemma Remaining(length: nat, blockSize: nat, n: nat, k: nat, ranks: nat)
    requires blockSize > 0 && n == CeilDiv(length, blockSize) && k < n && ranks > 0
    ensures k * blockSize < length
    ensures Min((k + 1) * blockSize, length) == k * blockSize + Min(length - k * blockSize, blockSize)
    ensures (k + 1) * blockSize < length <==> k + 1 < n
    ensures k + 1 < n ==> (length - (k + 1) * blockSize <= blockSize <==> k + 2 == n)
  {
    CeilBounds(length, blockSize);
    assert n * blockSize - blockSize < length <= n * blockSize;
    assert (k + 1) * blockSize == k * blockSize + blockSize;
    assert (k + 2) * blockSize == k * blockSize + 2 * blockSize;
    assert (n - 1) * blockSize == n * blockSize - blockSize;
    Scaled(k + 1, n, blockSize);
    if k + 1 < n { Scaled(k + 1, n - 1, blockSize); }
    if k + 2 < n { Scaled(k + 2, n - 1, blockSize); }
  }

  lemma PlacingStarts(allocs: seq<PrefixCacheBlockAllocator>, tokens: seq<TokenId>, extra: HashValue, blockSize: nat,
                      mix: Mixer, n: nat, starts: seq<State>)
    requires Ranked(allocs, blockSize, mix) && |starts| == |allocs| && Suffixed(tokens)
    requires forall q :: 0 <= q < |allocs| ==> allocs[q].Abs() == starts[q]
    ensures Placing(allocs, [], tokens, extra, blockSize, mix, n, starts)
  {
    hide Inv, RankReused;
    assert Addresses([]) == [];
    forall q | 0 <= q < |allocs|
      ensures RankReused(starts[q], allocs[q].Abs(), [], SeqHashes(mix, blockSize, tokens, extra, n), |allocs|, q)
    {
      LiveFacts(allocs[q]);
      RankReusedNone(starts[q], SeqHashes(mix, blockSize, tokens, extra, n), |allocs|, q);
    }
  }

  lemma RankedFacts(allocs: seq<PrefixCacheBlockAllocator>, blockSize: nat, mix: Mixer)
    requires Ranked(allocs, blockSize, mix)
    ensures |allocs| > 0 && blockSize > 0
  {
  }

  lemma RankStarts(length: nat, blockSize: nat, n: nat, ranks: nat)
    requires blockSize > 0 && ranks > 0 && n == CeilDiv(length, blockSize)
    ensures RankOf(0, n, ranks) == 0 && (length > 0 <==> n > 0)
  {
    CeilBounds(length, blockSize);
    assert n == 0 ==> n * blockSize == 0;
  }

  lemma ModNext(k: nat, d: nat)
    requires k > 0 && d > 0
    ensures k % d == ((k - 1) % d + 1) % d
  {
    BlockBounds(k - 1, d);
    var q, m := (k - 1) / d, (k - 1) % d;
    if m + 1 < d {
      ModIs(k, d, q, m + 1);
      ModIs(m + 1, d, 0, m + 1);
    } else {
      assert (q + 1) * d == q * d + d;
      ModIs(k, d, q + 1, 0);
      ModIs(m + 1, d, 1, 0);
    }
  }

  /** How the loop moves from the rank of block `k - 1` to that of block `k`. */
  lemma RankNext(k: nat, n: nat, ranks: nat)
    requires 0 < k <= n && ranks > 0
    ensures RankOf(k - 1, n, ranks) < ranks
    ensures k < n ==>
      RankOf(k, n, ranks) == (if k + 1 == n && k >= ranks then ranks - 1 else (RankOf(k - 1, n, ranks) + 1) % ranks)
  {
    ModNext(k, ranks);
  }

  /** The loop's cursor after `k` of `n` blocks of a list of `length` tokens. */
  predicate Cursor(length: nat, blockSize: nat, n: nat, k: nat, currentPos: nat, remaining: nat) {
    && currentPos + remaining == length && k <= n && (remaining > 0 <==> k < n)
    && (remaining > 0 ==> currentPos == k * blockSize)
  }

  lemma CursorStarts(length: nat, blockSize: nat, n: nat)
    requires blockSize > 0 && n == CeilDiv(length, blockSize)
    ensures Cursor(length, blockSize, n, 0, 0, length)
  {
    RankStarts(length, blockSize, n, 1);
  }

  lemma CursorNext(tokens: seq<TokenId>, blockSize: nat, n: nat, k: nat, currentPos: nat, remaining: nat)
    requires blockSize > 0 && n == CeilDiv(|tokens|, blockSize) && remaining > 0
    requires Cursor(|tokens|, blockSize, n, k, currentPos, remaining)
    ensures
      var count := Min(remaining, blockSize);
      && 0 < count <= remaining && k < n && currentPos + count <= |tokens|
      && tokens[currentPos..currentPos + count] == Chunk(tokens, blockSize, k)
      && Cursor(|tokens|, blockSize, n, k + 1, currentPos + count, remaining - count)
      && (remaining - count > 0 ==> k + 1 < n && (remaining - count <= blockSize <==> k + 2 == n))
      && (remaining - count == 0 ==> k + 1 == n)
  {
    Remaining(|tokens|, blockSize, n, k, 1);
    ChunkFrom(tokens, blockSize, k, currentPos, currentPos + Min(remaining, blockSize));
  }

  lemma CursorEnds(length: nat, blockSize: nat, n: nat, k: nat, currentPos: nat)
    requires Cursor(length, blockSize, n, k, currentPos, 0)
    ensures k == n
  {
  }

  method NextRank(rankIdx: nat, remaining: nat, blockSize: nat, placed: nat, ranks: nat, ghost n: nat)
    returns (next: nat)
    requires ranks > 0 && 0 < placed <= n && rankIdx == RankOf(placed - 1, n, ranks)
    requires placed < n ==> (remaining <= blockSize <==> placed + 1 == n)
    ensures next < ranks && (placed < n ==> next == RankOf(placed, n, ranks))
  {
    RankNext(placed, n, ranks);
    next := if remaining <= blockSize && placed >= ranks then ranks - 1 else (rankIdx + 1) % ranks;
  }

  /** The chunk that starts at `from`. */
  lemma ChunkFrom(tokens: seq<TokenId>, blockSize: nat, k: nat, from: nat, to: nat)
    requires from == k * blockSize && from <= to <= |tokens| && to == Min((k + 1) * blockSize, |tokens|)
    ensures tokens[from..to] == Chunk(tokens, blockSize, k)
  {
    Scaled(k, k + 1, blockSize);
  }

  /** Cuts `tokens` into blocks and places them over the ranks; `last` is the rank of the last block. It
      fails exactly if the ids some rank has do not cover the chunks of its part whose content nobody uses. */
  method AllocateSmallRankFirst(allocs: seq<PrefixCacheBlockAllocator>, tokens: seq<TokenId>, extra: HashValue,
                                blockSize: nat, ghost mix: Mixer, ghost starts: seq<State>)
    returns (r: Result<seq<BlockObj>>, last: nat)
    requires Ranked(allocs, blockSize, mix) && |starts| == |allocs| && Suffixed(tokens)
    requires forall q :: 0 <= q < |allocs| ==> allocs[q].Abs() == starts[q]
    modifies (set q | 0 <= q < |allocs| :: allocs[q]), (set q | 0 <= q < |allocs| :: allocs[q].evictor)
    ensures |allocs| > 0 && blockSize > 0
    ensures
      var n := CeilDiv(|tokens|, blockSize);
      match r
      case Err(e) => e == Exhausted && SomeTooFew(starts, SeqHashes(mix, blockSize, tokens, extra, n))
      case Ok(objs) =>
        && |objs| == n && Placing(allocs, objs, tokens, extra, blockSize, mix, n, starts)
        && !SomeTooFew(starts, SeqHashes(mix, blockSize, tokens, extra, n))
        && (n > 0 ==> last == RankOf(n - 1, n, |allocs|) < |allocs| && LastOpen(allocs[last], objs))
  {
    hide *;
    RankedFacts(allocs, blockSize, mix);
    var objs: seq<BlockObj>, remaining: nat, currentPos: nat, rankIdx: nat := [], |tokens|, 0, 0;
    ghost var n := CeilDiv(|tokens|, blockSize);
    last := 0;
    PlacingStarts(allocs, tokens, extra, blockSize, mix, n, starts);
    RankStarts(|tokens|, blockSize, n, |allocs|);
    CursorStarts(|tokens|, blockSize, n);
    while remaining > 0
      invariant Placing(allocs, objs, tokens, extra, blockSize, mix, n, starts)
      invariant Cursor(|tokens|, blockSize, n, |objs|, currentPos, remaining)
      invariant rankIdx < |allocs| && (remaining > 0 ==> rankIdx == RankOf(|objs|, n, |allocs|))
      invariant remaining == 0 && n > 0 ==>
        last == RankOf(n - 1, n, |allocs|) < |allocs| && LastOpen(allocs[last], objs)
    {
      CursorNext(tokens, blockSize, n, |objs|, currentPos, remaining);
      var count := Min(remaining, blockSize);
      var ts := tokens[currentPos..currentPos + count];
      currentPos, remaining := currentPos + count, remaining - count;
      var more := PlaceNext(allocs, objs, tokens, ts, extra, rankIdx, blockSize, mix, n, starts);
      if more.Err? {
        ShortOne(starts, SeqHashes(mix, blockSize, tokens, extra, n), rankIdx);
        return Err(more.error), last;
      }
      objs := more.value;
      if remaining == 0 {
        last := rankIdx;
      }
      rankIdx := NextRank(rankIdx, remaining, blockSize, |objs|, |allocs|, n);
    }
    CursorEnds(|tokens|, blockSize, n, |objs|, currentPos);
    PlacedNotTooFew(allocs, objs, tokens, extra, blockSize, mix, starts);
    r := Ok(objs);
  }
}
