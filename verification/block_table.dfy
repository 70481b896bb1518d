/** The block table of one sequence, on one rank. */
module BlockTables {
  import opened Basics
  import opened Arithmetic
  import opened Chunking
  import opened PrefixChain
  import opened PrefixCacheSpec
  import opened PrefixCacheSteps
  import opened PrefixCacheOperations
  import opened PrefixCacheRuns
  import opened PrefixCacheAllocator
  import opened BlockTableSpec
  import opened BlockTableSteps
  import opened LruEvictor
  import opened CacheReuse

  function Last(objs: seq<BlockObj>): BlockObj? {
    if objs == [] then null else objs[|objs| - 1]
  }

  /** Each object's prevBlock_ is the object before it. */
  ghost predicate Sequential(objs: seq<BlockObj>) {
    && (objs != [] ==> objs[0].prev == null)
    && (forall j, k :: 0 <= j < k < |objs| && k == j + 1 ==> objs[k].prev == objs[j])
  }

  lemma Push(objs: seq<BlockObj>, b: BlockObj)
    ensures Addresses(objs + [b]) == Addresses(objs) + [b.address]
    ensures Sequential(objs) && b.prev == Last(objs) ==> Sequential(objs + [b])
  {
  }

  lemma AddressesPrefix(objs: seq<BlockObj>, more: seq<BlockObj>)
    requires objs <= more
    ensures Addresses(objs) <= Addresses(more) && |Addresses(objs)| == |objs| && |Addresses(more)| == |more|
  {
  }

  lemma BlocksHold(alloc: PrefixCacheBlockAllocator, objs: seq<BlockObj>, tokens: seq<TokenId>)
    requires alloc.Valid() && Tabled(alloc.Abs(), Addresses(objs), tokens)
    requires forall k :: 0 <= k < |objs| ==> alloc.Has(objs[k])
    ensures forall k :: 0 <= k < |objs| ==> objs[k].tokens == Chunk(tokens, alloc.cfg.blockSize, k)
    ensures alloc.cfg.blockSize > 0 && |tokens| <= |objs| * alloc.cfg.blockSize
  {
    forall k | 0 <= k < |objs| ensures objs[k].tokens == Chunk(tokens, alloc.cfg.blockSize, k) {
      assert alloc.Has(objs[k]) && alloc.Blocks()[objs[k].address] == objs[k].Value();
      assert SlotOk(alloc.Abs(), Addresses(objs), tokens, k);
    }
  }

  method SumTokens(objs: seq<BlockObj>, ghost tokens: seq<TokenId>, ghost size: nat) returns (n: nat)
    requires size > 0 && |tokens| <= |objs| * size
    requires forall k :: 0 <= k < |objs| ==> objs[k].tokens == Chunk(tokens, size, k)
    ensures n == |tokens|
  {
    n := 0;
    for k := 0 to |objs|
      invariant n == Min(k * size, |tokens|)
    {
      Scaled(k, k + 1, size);
      n := n + |objs[k].tokens|;
    }
  }

  method IdsOf(objs: seq<BlockObj>) returns (ids: seq<BlockId>)
    ensures |ids| == |objs| && forall k :: 0 <= k < |objs| ==> ids[k] == objs[k].blockId
  {
    ids := [];
    for k := 0 to |objs|
      invariant |ids| == k && forall j :: 0 <= j < k ==> ids[j] == objs[j].blockId
    {
      ids := ids + [objs[k].blockId];
    }
  }

  /** A full chunk shares a cached id, at no cost, whatever is left; any other takes an id of its own. */
  method AllocateBlock(alloc: PrefixCacheBlockAllocator, ts: seq<TokenId>, prev: BlockObj?, extra: HashValue,
                       ghost a: Obj)
    returns (r: Result<BlockObj>)
    requires CollisionFree(alloc.cfg.mix) && alloc.Valid()
    requires MayPlace(alloc.Abs(), a, Behind(prev), ts, extra)
    modifies alloc, alloc.evictor
    ensures match r
      case Err(e) => e == Exhausted && Refused(old(alloc.Abs()), Block(old(Behind(prev)), ts, extra, 0))
      case Ok(b) =>
        && alloc.Valid() && fresh(b) && b.prev == prev && b.extra == extra && alloc.live == old(alloc.live)[a := b]
        && PlacedAs(old(alloc.Abs()), alloc.Abs(), a, Block(old(Behind(prev)), ts, extra, 0))
  {
    ghost var s, before := alloc.Abs(), Behind(prev);
    ghost var pick;
    PartialUncached(s, Block(before, ts, extra, 0));
    if |ts| == alloc.cfg.blockSize {
      r, pick := alloc.AllocateImmutableBlock(ts, prev, extra, a);
    } else {
      r, pick := alloc.AllocateMutableBlock(ts, prev, extra, a);
    }
    if r.Ok? { PlacedReuses(s, a, before, ts, extra, pick, alloc.Abs()); }
  }

  /** A block that is not full is not in the cache. */
  lemma PartialUncached(s: State, b: Block)
    requires Inv(s)
    ensures |b.tokens| != s.cfg.blockSize ==> HashOf(s.cfg, b) !in s.cached
  {
  }

  lemma PlacedReuses(s: State, a: Obj, before: Chain, ts: seq<TokenId>, extra: HashValue, pick: BlockId, t: State)
    requires CollisionFree(s.cfg.mix) && Inv(s) && MayPlace(s, a, before, ts, extra)
    requires if |ts| == s.cfg.blockSize then AllocateImmutableBlock(s, a, before, ts, extra, pick) == Ok(t)
             else AllocateMutableBlock(s, a, before, ts, extra, pick) == Ok(t)
    ensures Reuses(s, t, a, HashOf(s.cfg, Block(before, ts, extra, 0)))
  {
    hide InvHeld, AllocateMutableBlock, Reuses, CollisionFree;
    PartialUncached(s, Block(before, ts, extra, 0));
    PlacementReuses(s, a, before, ts, extra, pick);
  }

  /** The object placed stands for what was asked for. */
  lemma PlacedChain(alloc: PrefixCacheBlockAllocator, b: BlockObj, s: State, placed: Block)
    requires alloc.Has(b) && PlacedAs(s, alloc.Abs(), b.address, placed)
    ensures b.Chain() == Link(placed.before, placed.tokens, placed.extra)
  {
    assert alloc.Abs().blocks[b.address] == b.Value();
  }

  /** Every object that was live still is, at the same address. */
  ghost predicate Extends(live: map<Obj, BlockObj>, more: map<Obj, BlockObj>) {
    forall a :: a in live ==> a in more && more[a] == live[a]
  }

  lemma ExtendsSelf(live: map<Obj, BlockObj>)
    ensures Extends(live, live)
  {
  }

  lemma ExtendsIs(live: map<Obj, BlockObj>, more: map<Obj, BlockObj>)
    requires forall a :: a in live ==> a in more && more[a] == live[a]
    ensures Extends(live, more)
  {
  }

  lemma ExtendsBy(live: map<Obj, BlockObj>, more: map<Obj, BlockObj>, b: BlockObj)
    ensures Extends(live, more) && b.address !in more ==> Extends(live, more[b.address := b])
  {
  }

  /** The chain that walking back over prevBlock_ from block `k` of a table yields, as the objects are now. */
  function Walked(objs: seq<BlockObj>, k: nat): Chain
    requires k <= |objs|
    reads objs`tokens
  {
    if k == 0 then Root else Link(Walked(objs, k - 1), objs[k - 1].tokens, objs[k - 1].extra)
  }

  lemma LastIs(objs: seq<BlockObj>, b: BlockObj)
    ensures Last(objs + [b]) == b && Behind(b) == b.Chain()
  {
  }

  lemma NothingBehind(objs: seq<BlockObj>, ts: seq<TokenId>, size: nat, extra: HashValue)
    requires objs == []
    ensures Behind(Last(objs)) == SeqChain(ts, size, extra, 0) && Addresses(objs) == []
  {
  }

  /** The chunk that comes next continues the sequence's chain. */
  lemma NextHash(cfg: Config, chunks: seq<seq<TokenId>>, ts: seq<TokenId>, extra: HashValue, i: nat)
    requires cfg.blockSize > 0 && i < |chunks| && Cutting(chunks, ts, cfg.blockSize, cfg.blockSize)
    ensures
      var before := SeqChain(ts, cfg.blockSize, extra, i);
      && Link(before, chunks[i], extra) == SeqChain(ts, cfg.blockSize, extra, i + 1)
      && SeqHashes(cfg.mix, cfg.blockSize, ts, extra, |chunks|)[i] == HashOf(cfg, Block(before, chunks[i], extra, 0))
  {
    assert CutAt(chunks, ts, cfg.blockSize, cfg.blockSize, i);
    CutChunk(chunks, ts, cfg.blockSize, i);
  }

  lemma CutChunk(chunks: seq<seq<TokenId>>, ts: seq<TokenId>, size: nat, i: nat)
    requires size > 0 && i < |chunks| && CutAt(chunks, ts, size, size, i)
    ensures chunks[i] == Chunk(ts, size, i)
  {
    assert (i + 1) * size == i * size + size;
    if i > 0 { assert (i - 1) * size == i * size - size; }
  }

  lemma RefusedFails(s0: State, s: State, objs: seq<Obj>, hs: seq<HashValue>, k: nat, b: Block)
    requires Inv(s0) && Inv(s) && k < |hs| && HashesDiffer(hs) && Reused(s0, s, objs, hs[..k]) && s.cfg == s0.cfg
    requires hs[k] == HashOf(s0.cfg, b) && Refused(s, b)
    ensures Available(s0) < Uncovered(s0, hs)
  {
    hide Inv, Reused, HashesDiffer, Uncovered, Available;
    ReusedFails(s0, s, objs, hs, k);
  }

  class BlockTable {
    const alloc: PrefixCacheBlockAllocator
    var objs: seq<BlockObj>
    var ids: seq<BlockId>           // the mirror handed to the device
    var numFull: nat
    ghost var tokens: seq<TokenId>  // what the table holds

    constructor (alloc: PrefixCacheBlockAllocator)
      requires alloc.Valid() && CollisionFree(alloc.cfg.mix)
      ensures Valid() && tokens == [] && objs == [] && this.alloc == alloc
    {
      this.alloc := alloc;
      objs, ids, numFull, tokens := [], [], 0, [];
    }

    ghost predicate Mirrored()
      reads this`objs, this`ids, objs
    {
      |ids| == |objs| && forall k :: 0 <= k < |objs| ==> ids[k] == objs[k].blockId
    }

    ghost predicate Owned()
      reads this`objs, alloc`live
    {
      forall k :: 0 <= k < |objs| ==> alloc.Has(objs[k])
    }

    ghost predicate Holds(held: seq<TokenId>)
      reads this`objs, this`ids, objs, alloc, alloc.evictor, alloc.live.Values
    {
      && CollisionFree(alloc.cfg.mix) && alloc.Valid()
      && Sequential(objs) && Owned() && Mirrored()
      && Tabled(alloc.Abs(), Addresses(objs), held)
    }

    ghost predicate Valid()
      reads this, objs, alloc, alloc.evictor, alloc.live.Values
    {
      Holds(tokens) && numFull == |tokens|
    }

    lemma Sizes()
      requires Valid()
      ensures Holds(tokens) && alloc.Abs().cfg == alloc.cfg && alloc.cfg.blockSize > 0
      ensures numFull == |tokens| <= |objs| * alloc.cfg.blockSize && |Addresses(objs)| == |objs|
      ensures Suffixed(tokens) && tokens + [] == tokens
    {
    }

    lemma Settled()
      requires Holds(tokens) && numFull == |tokens|
      ensures Valid()
    {
    }

    /** What a block's prevBlock_ shows is the chain before it in the table. */
    lemma BehindIsBefore(k: nat, held: seq<TokenId>)
      requires Holds(held) && k <= |objs|
      ensures forall j :: 0 <= j < |objs| ==> Addresses(objs)[j] in alloc.Abs().blocks
      ensures Behind(if k == 0 then null else objs[k - 1]) == Before(alloc.Abs(), Addresses(objs), k)
      ensures k < |objs| ==> objs[k].prev == if k == 0 then null else objs[k - 1]
    {
      if k > 0 { assert alloc.Has(objs[k - 1]); }
    }

    /** Where a block of the table has known tokens, walking back over the objects shows the very chain that was read
        when its tokens were put in. */
    lemma {:induction false} WalkedKnown(k: nat, held: seq<TokenId>)
      requires Holds(held) && k < |objs| && Known(objs[k].tokens) != []
      ensures objs[k].prev == (if k == 0 then null else objs[k - 1])
      ensures Walked(objs, k) == objs[k].before && Walked(objs, k + 1) == objs[k].Chain()
      decreases k
    {
      HeldAt(k, held);
      BehindIsBefore(k, held);
      if k > 0 {
        HeldAt(k - 1, held);
        KnownAllBefore(held, alloc.cfg.blockSize, k);
        WalkedKnown(k - 1, held);
      }
    }

    lemma HeldAt(k: nat, held: seq<TokenId>)
      requires Holds(held) && k < |objs|
      ensures objs[k].tokens == Chunk(held, alloc.cfg.blockSize, k) && alloc.cfg.blockSize > 0 && Suffixed(held)
      ensures Addresses(objs)[k] in alloc.Abs().blocks && alloc.Abs().blocks[Addresses(objs)[k]] == objs[k].Value()
      ensures forall j :: 0 <= j < |objs| ==> Addresses(objs)[j] in alloc.Abs().blocks
      ensures Known(objs[k].tokens) != [] ==> objs[k].before == Before(alloc.Abs(), Addresses(objs), k)
    {
      assert alloc.Has(objs[k]);
      assert SlotOk(alloc.Abs(), Addresses(objs), held, k);
    }

    /** So hashing a block of a table by that walk, at any time, gives the hash the allocator files it under. */
    lemma WalkedHash(k: nat, held: seq<TokenId>)
      requires Holds(held) && k < |objs|
      ensures PrefixHash(alloc.cfg.mix, alloc.cfg.blockSize, Walked(objs, k + 1)) == objs[k].PrefixHash(alloc.cfg)
    {
      HeldAt(k, held);
      if Known(objs[k].tokens) != [] { WalkedKnown(k, held); }
    }

    /** An object behind the last one, holding `ts`; the table takes it in afterwards. */
    method PlaceBlock(ts: seq<TokenId>, extra: HashValue) returns (r: Result<BlockObj>)
      requires Holds(tokens) && Suffixed(tokens + ts)
      requires |ts| <= alloc.cfg.blockSize && (ts != [] ==> |tokens| == |objs| * alloc.cfg.blockSize)
      modifies alloc, alloc.evictor
      ensures match r
        case Err(e) => e == Exhausted && Refused(old(alloc.Abs()), Block(old(Behind(Last(objs))), ts, extra, 0))
        case Ok(b) =>
          && PlacedAs(old(alloc.Abs()), alloc.Abs(), b.address, Block(old(Behind(Last(objs))), ts, extra, 0))
          && alloc.Valid() && fresh(b) && b.prev == Last(objs) && b.extra == extra
          && b.address !in old(alloc.live) && alloc.live == old(alloc.live)[b.address := b]
          && Tabled(alloc.Abs(), Addresses(objs) + [b.address], tokens + ts)
          && Grown(old(alloc.Abs()), alloc.Abs(), b.address, ts)
    {
      hide Inv; hide Sequential; hide Mirrored;
      ghost var s, addresses := alloc.Abs(), Addresses(objs);
      ghost var a := FreshAddress(alloc.live.Keys);
      assert a !in s.blocks by { assert alloc.Blocks().Keys == alloc.live.Keys; }
      BehindIsBefore(|objs|, tokens);
      assert Behind(Last(objs)) == Before(s, addresses, |addresses|);
      MayPlaceNext(s, addresses, tokens, a, ts, extra);
      r := AllocateBlock(alloc, ts, Last(objs), extra, a);
      if r.Ok? {
        PlacedGrown(s, alloc.Abs(), addresses, tokens, a, ts, extra);
      }
    }

    /** One more block at the end of the table. */
    method TakeBlock(ts: seq<TokenId>, extra: HashValue) returns (r: Result<BlockObj>)
      requires Holds(tokens) && Suffixed(tokens + ts)
      requires |ts| <= alloc.cfg.blockSize && (ts != [] ==> |tokens| == |objs| * alloc.cfg.blockSize)
      modifies this`objs, this`ids, this`tokens, alloc, alloc.evictor
      ensures match r
        case Err(e) => e == Exhausted && Refused(old(alloc.Abs()), Block(old(Behind(Last(objs))), ts, extra, 0))
        case Ok(b) =>
          && PlacedAs(old(alloc.Abs()), alloc.Abs(), b.address, Block(old(Behind(Last(objs))), ts, extra, 0))
          && b.Chain() == Link(old(Behind(Last(objs))), ts, extra)
          && Holds(tokens) && tokens == old(tokens) + ts
          && objs == old(objs) + [b] && b.extra == extra && fresh(b) && b.address !in old(alloc.live)
          && alloc.live == old(alloc.live)[b.address := b]
          && Grown(old(alloc.Abs()), alloc.Abs(), b.address, ts)
    {
      hide Inv; hide Tabled; hide Mirrored; hide Sequential; hide PlacedAs; hide Refused;
      ghost var before := Behind(Last(objs));
      r := PlaceBlock(ts, extra);
      if r.Ok? {
        PlacedChain(alloc, r.value, old(alloc.Abs()), Block(before, ts, extra, 0));
        TakeIn(r.value, ts);
      }
    }

    method TakeIn(b: BlockObj, ts: seq<TokenId>)
      requires CollisionFree(alloc.cfg.mix) && alloc.Valid()
      requires Sequential(objs) && Owned() && Mirrored() && alloc.Has(b) && b.prev == Last(objs)
      requires Tabled(alloc.Abs(), Addresses(objs) + [b.address], tokens + ts)
      modifies this`objs, this`ids, this`tokens
      ensures Holds(tokens) && tokens == old(tokens) + ts && objs == old(objs) + [b]
    {
      Push(objs, b);
      objs := objs + [b];
      ids := ids + [b.blockId];
      tokens := tokens + ts;
    }

    /** `ts` into block `k`, which the table's tokens end in or just before. */
    method AppendChunk(k: nat, ts: seq<TokenId>) returns (r: Result<()>)
      requires Holds(tokens) && Suffixed(tokens + ts) && k < |objs| && Continues(tokens, ts, alloc.cfg.blockSize, k)
      modifies this`ids, this`tokens, alloc, alloc.evictor, objs[k]
      ensures match r
        case Err(e) =>
          e == Exhausted && !Writable(old(alloc.Abs()), objs[k].address) && Available(old(alloc.Abs())) == 0
        case Ok(_) =>
          && Holds(tokens) && tokens == old(tokens) + ts && alloc.live == old(alloc.live)
          && Extended(old(alloc.Abs()), alloc.Abs(), objs[k].address)
    {
      hide Inv; hide Tabled; hide Sequential; hide Extended; hide Writable; hide Continues; hide LRUEvictor.Valid;
      DistinctObjects();
      r := FillBlock(k, ts);
      if r.Ok? {
        Remember(k, ts);
      }
    }

    lemma DistinctObjects()
      requires Tabled(alloc.Abs(), Addresses(objs), tokens)
      ensures forall i, j :: 0 <= i < j < |objs| ==> objs[i] != objs[j]
    {
      forall i, j | 0 <= i < j < |objs| ensures objs[i] != objs[j] {
        assert Addresses(objs)[i] != Addresses(objs)[j];
      }
    }

    /** The mirror follows block `k`, which copy-on-write or promotion may have moved. */
    method Remember(k: nat, ts: seq<TokenId>)
      requires CollisionFree(alloc.cfg.mix) && alloc.Valid()
      requires Sequential(objs) && Owned() && Tabled(alloc.Abs(), Addresses(objs), tokens + ts)
      requires k < |objs| == |ids| && forall j :: 0 <= j < |objs| && j != k ==> ids[j] == objs[j].blockId
      modifies this`ids, this`tokens
      ensures Holds(tokens) && tokens == old(tokens) + ts
    {
      hide Inv; hide Tabled; hide Sequential;
      ids := ids[k := objs[k].blockId];
      tokens := tokens + ts;
    }

    method FillBlock(k: nat, ts: seq<TokenId>) returns (r: Result<()>)
      requires Holds(tokens) && Suffixed(tokens + ts) && k < |objs| && Continues(tokens, ts, alloc.cfg.blockSize, k)
      modifies alloc, alloc.evictor, objs[k]
      ensures match r
        case Err(e) =>
          e == Exhausted && !Writable(old(alloc.Abs()), objs[k].address) && Available(old(alloc.Abs())) == 0
        case Ok(_) =>
          && alloc.Valid() && alloc.live == old(alloc.live)
          && Tabled(alloc.Abs(), Addresses(objs), tokens + ts)
          && Extended(old(alloc.Abs()), alloc.Abs(), objs[k].address)
    {
      ghost var s, addresses := alloc.Abs(), Addresses(objs);
      BehindIsBefore(k, tokens);
      MayAppendNext(s, addresses, tokens, ts, k);
      assert s.blocks[addresses[k]] == objs[k].Value();
      ghost var pick;
      r, pick := alloc.AppendTokenIds(objs[k], ts);
      if r.Ok? {
        AppendedExtended(s, alloc.Abs(), addresses, tokens, k, ts);
      }
    }

    // ---------- appending ----------

    /** New empty blocks until `required` more tokens fit. */
    method EnsureEnoughSlots(required: nat, extra: HashValue) returns (r: Result<()>)
      requires Valid()
      modifies this`objs, this`ids, this`tokens, alloc, alloc.evictor
      ensures
        var count := NewBlocks(|old(objs)|, numFull, required, alloc.cfg.blockSize);
        match r
        case Err(e) => e == Exhausted && Available(old(alloc.Abs())) < count
        case Ok(_) =>
          && Valid() && tokens == old(tokens) && old(objs) <= objs && |objs| == |old(objs)| + count
          && (forall k :: |old(objs)| <= k < |objs| ==> fresh(objs[k]) && objs[k].extra == extra)
          && Extends(old(alloc.live), alloc.live)
          && GrownBy(old(alloc.Abs()), |old(objs)|, alloc.Abs(), Addresses(objs))
    {
      hide *;
      Sizes();
      var count := NewBlocks(|objs|, numFull, required, alloc.cfg.blockSize);
      GrownByNone(alloc.Abs(), Addresses(objs));
      ExtendsSelf(alloc.live);
      for i := 0 to count
        invariant Holds(tokens) && tokens == old(tokens) && old(objs) <= objs && |objs| == |old(objs)| + i
        invariant forall k :: |old(objs)| <= k < |objs| ==> fresh(objs[k]) && objs[k].extra == extra
        invariant Extends(old(alloc.live), alloc.live)
        invariant GrownBy(old(alloc.Abs()), |old(objs)|, alloc.Abs(), Addresses(objs))
      {
        r := AddEmptyBlock(extra, old(alloc.Abs()), |old(objs)|, old(alloc.live));
        if r.Err? {
          return;
        }
      }
      Settled();
      return Ok(());
    }

    method AddEmptyBlock(extra: HashValue, ghost s0: State, ghost n0: nat, ghost live: map<Obj, BlockObj>)
      returns (r: Result<()>)
      requires Holds(tokens) && Extends(live, alloc.live) && GrownBy(s0, n0, alloc.Abs(), Addresses(objs))
      modifies this`objs, this`ids, this`tokens, alloc, alloc.evictor
      ensures match r
        case Err(e) => e == Exhausted && Available(s0) + n0 <= |old(objs)|
        case Ok(_) =>
          && Holds(tokens) && tokens == old(tokens) && old(objs) <= objs && |objs| == |old(objs)| + 1
          && fresh(objs[|old(objs)|]) && objs[|old(objs)|].extra == extra && Extends(live, alloc.live)
          && GrownBy(s0, n0, alloc.Abs(), Addresses(objs))
    {
      assert tokens + [] == tokens && Suffixed(tokens);
      ghost var s, addresses := alloc.Abs(), Addresses(objs);
      assert alloc.Blocks().Keys == alloc.live.Keys;
      assert Available(s) + |objs| >= Available(s0) + n0;
      hide Inv; hide Tabled; hide Sequential; hide Mirrored; hide GrownBy; hide SpentBy; hide Grown; hide PlacedAs;
      var b := TakeBlock([], extra);
      if b.Err? {
        return Err(b.error);
      }
      Push(old(objs), b.value);
      GrownByOne(s0, n0, s, addresses, alloc.Abs(), b.value.address);
      ExtendsBy(live, old(alloc.live), b.value);
      return Ok(());
    }

    method ChunkTokensForAppend(ts: seq<TokenId>) returns (chunks: seq<seq<TokenId>>)
      requires alloc.cfg.blockSize > 0
      ensures Cutting(chunks, ts, alloc.cfg.blockSize - numFull % alloc.cfg.blockSize, alloc.cfg.blockSize)
    {
      chunks := [];
      if ts == [] {
        return;
      }
      var size := alloc.cfg.blockSize;
      var empty := size - numFull % size;
      chunks := [ts[..Min(empty, |ts|)]];
      var i := empty;
      while i < |ts|
        invariant |chunks| > 0 && i == empty + (|chunks| - 1) * size
        invariant |chunks| > 1 ==> i - size < |ts|
        invariant forall j :: 0 <= j < |chunks| ==> CutAt(chunks, ts, empty, size, j)
      {
        var end := Min(i + size, |ts|);
        ghost var before := chunks;
        chunks := chunks + [ts[i..end]];
        assert |before| * size == (|before| - 1) * size + size;
        forall j | 0 <= j < |chunks| ensures CutAt(chunks, ts, empty, size, j) {
          if j < |before| { assert CutAt(before, ts, empty, size, j); }
        }
        i := i + size;
      }
    }

    /** Block `k` holds its part of the table's tokens. */
    lemma BlockHolds(k: nat)
      requires Holds(tokens) && k < |objs|
      ensures objs[k].tokens == Chunk(tokens, alloc.cfg.blockSize, k)
      ensures (k + 1) * alloc.cfg.blockSize <= |tokens| ==> |objs[k].tokens| == alloc.cfg.blockSize
    {
      BlocksHold(alloc, objs, tokens);
      ChunkSize(tokens, alloc.cfg.blockSize, k);
    }

    /** The chunks go into consecutive blocks, the first into block `first`. */
    method FillChunks(chunks: seq<seq<TokenId>>, first: nat, ghost empty: nat, ghost ts: seq<TokenId>, ghost s0: State,
                      ghost mine: seq<Obj>, ghost floor: int) returns (r: Result<()>)
      requires Holds(tokens) && Cuts(chunks, alloc.cfg.blockSize, |objs|, first, empty, tokens, ts)
      requires Appending(s0, mine, first, floor, alloc.Abs(), Addresses(objs), first,
                         Quiet(tokens + ts, alloc.cfg.blockSize, first))
      modifies this`ids, this`tokens, alloc, alloc.evictor, objs
      ensures match r
        case Err(e) => e == Exhausted && chunks != [] && floor < Unready(s0, mine, first, |mine|)
        case Ok(_) =>
          && Holds(tokens) && tokens == old(tokens) + ts && alloc.live == old(alloc.live)
          && Appending(s0, mine, first, floor, alloc.Abs(), Addresses(objs), first + |chunks|,
                       Quiet(old(tokens) + ts, alloc.cfg.blockSize, first))
    {
      hide *;
      ghost var n, size := tokens, alloc.cfg.blockSize;
      HeldEnds(chunks, size, |objs|, first, empty, n, ts);
      for i := 0 to |chunks|
        invariant Holds(tokens) && tokens == HeldAfter(size, empty, n, ts, i) && alloc.live == old(alloc.live)
        invariant Appending(s0, mine, first, floor, alloc.Abs(), Addresses(objs), first + i,
                            Quiet(n + ts, size, first))
      {
        r := FillChunk(chunks, first, i, empty, n, ts, s0, mine, floor);
        if r.Err? {
          return;
        }
      }
      return Ok(());
    }

    method FillChunk(chunks: seq<seq<TokenId>>, first: nat, i: nat, ghost empty: nat, ghost n: seq<TokenId>,
                     ghost ts: seq<TokenId>, ghost s0: State, ghost mine: seq<Obj>, ghost floor: int)
      returns (r: Result<()>)
      requires Cuts(chunks, alloc.cfg.blockSize, |objs|, first, empty, n, ts) && i < |chunks|
      requires Holds(tokens) && tokens == HeldAfter(alloc.cfg.blockSize, empty, n, ts, i)
      requires Appending(s0, mine, first, floor, alloc.Abs(), Addresses(objs), first + i,
                         Quiet(n + ts, alloc.cfg.blockSize, first))
      modifies this`ids, this`tokens, alloc, alloc.evictor, objs
      ensures match r
        case Err(e) => e == Exhausted && floor < Unready(s0, mine, first, |mine|)
        case Ok(_) =>
          && Holds(tokens) && tokens == HeldAfter(alloc.cfg.blockSize, empty, n, ts, i + 1)
          && alloc.live == old(alloc.live)
          && Appending(s0, mine, first, floor, alloc.Abs(), Addresses(objs), first + i + 1,
                       Quiet(n + ts, alloc.cfg.blockSize, first))
    {
      hide *;
      ghost var s, addresses, held, size := alloc.Abs(), Addresses(objs), tokens, alloc.cfg.blockSize;
      CutStep(chunks, size, |objs|, first, empty, n, ts, i);
      HoldsFacts();
      r := AppendChunk(first + i, chunks[i]);
      if r.Ok? {
        HoldsFacts();
        HeldWithin(size, empty, n, ts, i + 1);
        QuietUnhashed(alloc.Abs(), addresses, tokens, n + ts, first, first + i);
        AppendingOne(s0, mine, first, floor, s, addresses, first + i, Quiet(n + ts, size, first), held, alloc.Abs());
        if i + 1 < |chunks| {
          BlockHolds(first + i);
          if |objs[first + i].tokens| != alloc.cfg.blockSize {
            r := Err(Internal);
          }
        }
      } else {
        AppendingFails(s0, mine, first, floor, s, addresses, first + i, Quiet(n + ts, size, first));
      }
    }

    lemma HoldsFacts()
      requires Holds(tokens)
      ensures Inv(alloc.Abs()) && Tabled(alloc.Abs(), Addresses(objs), tokens) && alloc.Abs().cfg == alloc.cfg
      ensures |Addresses(objs)| == |objs| && forall k :: 0 <= k < |objs| ==> Addresses(objs)[k] == objs[k].address
      ensures alloc.cfg.blockSize > 0
    {
    }

    /** The part of AppendTokenIds behind EnsureEnoughSlots. */
    method FillSlots(ts: seq<TokenId>, first: nat, ghost s0: State, ghost mine: seq<Obj>) returns (r: Result<()>)
      requires alloc.cfg.blockSize > 0 && first == numFull / alloc.cfg.blockSize
      requires Valid() && Suffixed(tokens + ts) && numFull + |ts| <= |objs| * alloc.cfg.blockSize
      requires Inv(s0) && Tabled(s0, mine, tokens) && s0.cfg == alloc.cfg
      requires GrownBy(s0, |mine|, alloc.Abs(), Addresses(objs)) && mine <= Addresses(objs)
      modifies this`ids, this`tokens, this`numFull, alloc, alloc.evictor, objs
      ensures Filled(s0, mine, first, |objs|, old(tokens), ts, if r.Ok? then Ok(alloc.Abs()) else Err(r.error))
      ensures r.Ok? ==> Valid() && tokens == old(tokens) + ts && alloc.live == old(alloc.live)
    {
      hide *;
      ghost var n, size := tokens, alloc.cfg.blockSize;
      var chunks := ChunkTokensForAppend(ts);
      Sizes();
      HoldsFacts();
      CutsStart(chunks, size, |objs|, tokens, ts);
      CuttingSome(chunks, ts, size - numFull % size, size);
      FirstUnhashed(s0, mine, tokens);
      AppendingStarts(s0, mine, alloc.Abs(), Addresses(objs), first, Quiet(n + ts, size, first));
      GrownFloor(s0, mine, alloc.Abs(), Addresses(objs));
      r := FillChunks(chunks, first, size - numFull % size, ts, s0, mine, Available(s0) + |mine| - |objs|);
      if r.Ok? {
        FilledBy(s0, mine, alloc.Abs(), Addresses(objs), first, first + |chunks|, n, ts);
        numFull := numFull + |ts|;
        Settled();
      } else {
        FilledNot(s0, mine, first, |objs|, n, ts);
      }
    }

    /** Appends to the table; other tables keep what they hold. */
    method AppendTokenIds(ts: seq<TokenId>, extra: HashValue, lookahead: nat) returns (r: Result<()>)
      requires Valid() && Suffixed(tokens + ts)
      modifies this, alloc, alloc.evictor, objs
      ensures AppendResult(old(alloc.Abs()), Addresses(old(objs)), old(tokens), ts, lookahead,
                           if r.Ok? then Ok(alloc.Abs()) else Err(r.error))
      ensures r.Ok? ==> Valid() && tokens == old(tokens) + ts && old(objs) <= objs
      ensures r.Ok? ==> Extends(old(alloc.live), alloc.live)
      ensures r.Ok? ==> forall k :: |old(objs)| <= k < |objs| ==> fresh(objs[k]) && objs[k].extra == extra
    {
      hide *;
      Sizes();
      HoldsFacts();
      ghost var s0, mine, n, before := alloc.Abs(), Addresses(objs), tokens, objs;
      NewBlocksEnough(|objs|, numFull, |ts| + lookahead, alloc.cfg.blockSize);
      if objs == [] {
        AppendUnfilled(s0, mine, n, ts, lookahead, Misuse);
        return Err(Misuse);
      }
      var first := numFull / alloc.cfg.blockSize;
      r := EnsureEnoughSlots(|ts| + lookahead, extra);
      if r.Err? {
        AppendUnfilled(s0, mine, n, ts, lookahead, r.error);
        return;
      }
      AddressesPrefix(before, objs);
      GrownFloor(s0, mine, alloc.Abs(), Addresses(objs));
      r := FillSlots(ts, first, s0, mine);
      AppendFilled(s0, mine, n, ts, lookahead, |objs|, if r.Ok? then Ok(alloc.Abs()) else Err(r.error));
    }

    // ---------- allocating ----------

    method ChunkTokensForAllocate(ts: seq<TokenId>, size: nat) returns (chunks: seq<seq<TokenId>>)
      requires size > 0
      ensures Cutting(chunks, ts, size, size)
    {
      hide *;
      chunks := [];
      var i := 0;
      CutNone(ts, size);
      while i < |ts|
        invariant CutSoFar(chunks, ts, size, i)
      {
        CutNext(chunks, ts, size, i);
        var end := if i + size < |ts| then i + size else |ts|;
        chunks := chunks + [ts[i..end]];
        i := i + size;
      }
      CutAll(chunks, ts, size, i);
    }

    /** The next chunk, whose hash comes after `hs`. */
    method TakeChunk(ts: seq<TokenId>, extra: HashValue, ghost s0: State, ghost hs: seq<HashValue>, ghost k: nat)
      returns (r: Result<()>)
      requires Holds(tokens) && Suffixed(tokens + ts) && SpentBy(s0, 0, alloc.Abs(), Addresses(objs))
      requires |ts| <= alloc.cfg.blockSize && (ts != [] ==> |tokens| == |objs| * alloc.cfg.blockSize)
      requires Inv(s0) && s0.cfg == alloc.cfg && k < |hs| && HashesDiffer(hs)
      requires Reused(s0, alloc.Abs(), Addresses(objs), hs[..k])
      requires hs[k] == HashOf(s0.cfg, Block(Behind(Last(objs)), ts, extra, 0))
      modifies this`objs, this`ids, this`tokens, alloc, alloc.evictor
      ensures match r
        case Err(e) => e == Exhausted && Available(s0) < Uncovered(s0, hs)
        case Ok(_) =>
          && Holds(tokens) && tokens == old(tokens) + ts && |objs| == |old(objs)| + 1
          && old(objs) <= objs && objs[|old(objs)|].extra == extra
          && Behind(Last(objs)) == Link(old(Behind(Last(objs))), ts, extra)
          && SpentBy(s0, 0, alloc.Abs(), Addresses(objs)) && Reused(s0, alloc.Abs(), Addresses(objs), hs[..k + 1])
    {
      hide *;
      ghost var s, addresses, before := alloc.Abs(), Addresses(objs), Behind(Last(objs));
      HoldsFacts();
      ghost var live := alloc.live;
      KeysLive();
      DifferPrefix(hs, k);
      var b := TakeBlock(ts, extra);
      if b.Err? {
        RefusedFails(s0, s, addresses, hs, k, Block(before, ts, extra, 0));
        return Err(b.error);
      }
      Push(old(objs), b.value);
      SpentByOne(s0, 0, s, addresses, alloc.Abs(), b.value.address, ts);
      ReusedNext(s0, s, addresses, hs[..k], alloc.Abs(), b.value.address, Block(before, ts, extra, 0));
      LastIs(old(objs), b.value);
      return Ok(());
    }

    lemma KeysLive()
      ensures alloc.Abs().blocks.Keys == alloc.live.Keys
    {
      assert alloc.Blocks().Keys == alloc.live.Keys;
    }

    /** A new table holds exactly `ts`. It fails exactly if the ids left do not cover the blocks whose content nobody
        uses; the others, and those cached as long as free ids last, end on the ids they were cached under. */
    method Allocate(ts: seq<TokenId>, extra: HashValue) returns (r: Result<()>)
      requires Valid() && Suffixed(ts)
      modifies this, alloc, alloc.evictor
      ensures
        var blocks := CeilDiv(|ts|, alloc.cfg.blockSize);
        var hs := SeqHashes(alloc.cfg.mix, alloc.cfg.blockSize, ts, extra, blocks);
        match r
        case Err(e) =>
          if old(objs) != [] then e == Misuse
          else e == Exhausted && Available(old(alloc.Abs())) < Uncovered(old(alloc.Abs()), hs) <= blocks
        case Ok(_) =>
          && old(objs) == [] && Valid() && tokens == ts && |objs| == blocks
          && (forall k :: 0 <= k < |objs| ==> objs[k].extra == extra)
          && SpentBy(old(alloc.Abs()), 0, alloc.Abs(), Addresses(objs))
          && Reused(old(alloc.Abs()), alloc.Abs(), Addresses(objs), hs)
    {
      hide *;
      Sizes();
      HoldsFacts();
      if objs != [] {
        return Err(Misuse);
      }
      ghost var size := alloc.cfg.blockSize;
      var chunks := ChunkTokensForAllocate(ts, alloc.cfg.blockSize);
      AllocEnds(chunks, size, ts);
      SpentByNone(alloc.Abs(), Addresses(objs));
      ghost var s0, hs := alloc.Abs(), SeqHashes(alloc.cfg.mix, size, ts, extra, |chunks|);
      SeqHashesApart(alloc.cfg.mix, size, ts, extra, |chunks|);
      ReusedNone(s0);
      UncoveredBound(s0, hs);
      NothingBehind(objs, ts, size, extra);
      assert hs[..0] == [];
      for i := 0 to |chunks|
        invariant Holds(tokens) && |objs| == i && tokens == HeldAfter(size, size, [], ts, i)
        invariant forall k :: 0 <= k < i ==> objs[k].extra == extra
        invariant SpentBy(s0, 0, alloc.Abs(), Addresses(objs)) && Reused(s0, alloc.Abs(), Addresses(objs), hs[..i])
        invariant Behind(Last(objs)) == SeqChain(ts, size, extra, i)
      {
        AllocStep(chunks, size, ts, i);
        NextHash(alloc.cfg, chunks, ts, extra, i);
        r := TakeChunk(chunks[i], extra, s0, hs, i);
        if r.Err? {
          objs, ids := [], [];
          return;
        }
      }
      assert hs[..|chunks|] == hs;
      numFull := |ts|;
      Settled();
      return Ok(());
    }

    // ---------- forking ----------

    method GetNumTokenIds() returns (n: nat)
      requires Holds(tokens)
      ensures n == |tokens|
    {
      forall k | 0 <= k < |objs| ensures objs[k].tokens == Chunk(tokens, alloc.cfg.blockSize, k) { BlockHolds(k); }
      assert alloc.cfg.blockSize > 0;
      n := SumTokens(objs, tokens, alloc.cfg.blockSize);
    }

    /** A table over blocks that already exist. */
    constructor Over(alloc: PrefixCacheBlockAllocator, objs: seq<BlockObj>, ghost tokens: seq<TokenId>)
      requires CollisionFree(alloc.cfg.mix) && alloc.Valid()
      requires Sequential(objs) && forall k :: 0 <= k < |objs| ==> alloc.Has(objs[k])
      requires Tabled(alloc.Abs(), Addresses(objs), tokens)
      ensures Valid() && this.alloc == alloc && this.objs == objs && this.tokens == tokens
      ensures |ids| == |objs| && forall k :: 0 <= k < |objs| ==> ids[k] == objs[k].blockId
    {
      hide *;
      BlocksHold(alloc, objs, tokens);
      var ids := IdsOf(objs);
      var n := SumTokens(objs, tokens, alloc.cfg.blockSize);
      this.alloc := alloc;
      this.objs, this.ids, this.numFull := objs, ids, n;
      this.tokens := tokens;
      new;
      OverHolds();
    }

    lemma OverHolds()
      requires CollisionFree(alloc.cfg.mix) && alloc.Valid() && Sequential(objs)
      requires forall k :: 0 <= k < |objs| ==> alloc.Has(objs[k])
      requires |ids| == |objs| && forall k :: 0 <= k < |objs| ==> ids[k] == objs[k].blockId
      requires Tabled(alloc.Abs(), Addresses(objs), tokens) && numFull == |tokens|
      ensures Valid()
    {
    }

    lemma ForkReady()
      requires Valid() && objs != []
      ensures alloc.Valid() && Inv(alloc.Abs()) && CollisionFree(alloc.cfg.mix) && Sequential(objs) && Mirrored()
      ensures numFull == |tokens| && |Addresses(objs)| == |objs| == |ids|
      ensures forall k :: 0 <= k < |objs| ==> objs[k].address in alloc.live && alloc.live[objs[k].address] == objs[k]
      ensures alloc.live.Keys == alloc.Abs().blocks.Keys && alloc.Abs().cfg == alloc.cfg
      ensures forall k :: 0 <= k < |objs| ==> Addresses(objs)[k] in alloc.Abs().blocks
      ensures alloc.ChainTo(objs, objs[|objs| - 1])
      ensures Tabled(alloc.Abs(), Addresses(objs), tokens)
      ensures forall k :: 0 <= k < |objs| ==> objs[k].blockId == alloc.Abs().blocks[Addresses(objs)[k]].id == ids[k]
    {
      assert alloc.Blocks().Keys == alloc.live.Keys;
      forall k | 0 <= k < |objs| ensures alloc.Abs().blocks[Addresses(objs)[k]] == objs[k].Value() {
        assert alloc.Has(objs[k]);
      }
    }

    /** Copies of all blocks, in a chain of their own. */
    method ForkBlocks() returns (b: seq<BlockObj>)
      requires Valid() && objs != []
      modifies alloc
      ensures Valid() && Tabled(alloc.Abs(), Addresses(b), tokens)
        && Available(alloc.Abs()) == Available(old(alloc.Abs()))
      ensures Sequential(b) && |b| == |objs|
      ensures Kept(old(alloc.Abs()), alloc.Abs(), Addresses(objs)) && Extends(old(alloc.live), alloc.live)
      ensures forall k :: 0 <= k < |b| ==> fresh(b[k]) && alloc.Has(b[k]) && b[k].blockId == objs[k].blockId
    {
      hide *;
      ghost var s, sources, live := alloc.Abs(), Addresses(objs), alloc.live;
      ForkReady();
      ghost var copies := FreshAddresses(alloc.live.Keys, |objs|);
      ForkBlocksCorrect(s, sources, copies);
      var r := alloc.Fork(objs[|objs| - 1], copies, objs);
      b := r.value;
      CopiesChain(alloc.live, b, copies);
      ForkedTabled(s, alloc.Abs(), sources, copies, tokens);
      ForkedKept(s, alloc.Abs(), sources, copies);
      StillValid(live);
      ExtendsIs(live, alloc.live);
      ForkReady();
      CopyIds(b);
    }

    lemma StillValid(live: map<Obj, BlockObj>)
      requires CollisionFree(alloc.cfg.mix) && alloc.Valid() && Sequential(objs) && Mirrored() && numFull == |tokens|
      requires forall a :: a in live ==> a in alloc.live && alloc.live[a] == live[a]
      requires forall k :: 0 <= k < |objs| ==> objs[k].address in live && live[objs[k].address] == objs[k]
      requires Tabled(alloc.Abs(), Addresses(objs), tokens)
      ensures Valid()
    {
    }

    lemma CopyIds(b: seq<BlockObj>)
      requires alloc.Valid() && |b| == |objs|
      requires forall k :: 0 <= k < |b| ==> objs[k].address in alloc.live && alloc.live[objs[k].address] == objs[k]
      requires forall k :: 0 <= k < |b| ==> b[k].address in alloc.live && alloc.live[b[k].address] == b[k]
      requires forall k :: 0 <= k < |b| ==>
        Addresses(b)[k] in alloc.Abs().blocks && Addresses(objs)[k] in alloc.Abs().blocks
      requires forall k :: 0 <= k < |b| ==>
        alloc.Abs().blocks[Addresses(b)[k]].id == alloc.Abs().blocks[Addresses(objs)[k]].id
      ensures forall k :: 0 <= k < |b| ==> b[k].blockId == objs[k].blockId && alloc.Has(b[k])
    {
      forall k | 0 <= k < |b| ensures b[k].blockId == objs[k].blockId && alloc.Has(b[k]) {
        assert alloc.Blocks()[b[k].address] == b[k].Value() && alloc.Blocks()[objs[k].address] == objs[k].Value();
        assert alloc.Abs().blocks[Addresses(b)[k]].id == alloc.Abs().blocks[Addresses(objs)[k]].id;
      }
    }

    /** A second table over the same ids; both hold the tokens, no id was needed, and nobody else's blocks
        changed. */
    method Fork() returns (r: Result<BlockTable>)
      requires Valid()
      modifies alloc
      ensures objs == [] ==> r == Err(Misuse)
      ensures objs != [] ==> r.Ok?
      ensures r.Ok? ==> Valid() && fresh(r.value) && r.value.Valid() && r.value.alloc == alloc
      ensures r.Ok? ==> Kept(old(alloc.Abs()), alloc.Abs(), Addresses(objs)) && Extends(old(alloc.live), alloc.live)
      ensures r.Ok? ==> r.value.tokens == tokens && r.value.ids == ids
      ensures r.Ok? ==> forall k :: 0 <= k < |r.value.objs| ==> fresh(r.value.objs[k])
      ensures r.Ok? ==> Available(alloc.Abs()) == Available(old(alloc.Abs()))
    {
      hide *;
      if objs == [] {
        return Err(Misuse);
      }
      ForkReady();
      var b := ForkBlocks();
      ForkReady();
      var t := new BlockTable.Over(alloc, b, tokens);
      return Ok(t);
    }

    // ---------- freeing ----------

    /** Object `k` gives up its id; those before it already have. */
    method FreeBlock(k: nat, ghost s0: State)
      requires alloc.Valid() && k < |objs| && Kept(s0, alloc.Abs(), Addresses(objs))
      requires DistinctFrom(k)
      modifies alloc, alloc.evictor, objs[k]
      ensures alloc.Valid() && alloc.live == old(alloc.live) - {objs[k].address}
      ensures DistinctFrom(k + 1) && Kept(s0, alloc.Abs(), Addresses(objs))
      ensures Available(alloc.Abs()) >= Available(old(alloc.Abs()))
      ensures objs[k].address in old(alloc.Abs()).blocks
      ensures PrefixCacheSpec.Free(old(alloc.Abs()), objs[k].address) == Ok(alloc.Abs())
    {
      hide Inv; hide Kept; hide LRUEvictor.Valid;
      ghost var s := alloc.Abs();
      assert alloc.Has(objs[k]) && objs[k].address in alloc.Blocks();
      assert Addresses(objs)[k] == objs[k].address;
      var r := alloc.Free(objs[k]);
      FreeStep(s0, Addresses(objs), s, objs[k].address, alloc.Abs());
    }

    ghost predicate DistinctFrom(k: nat)
      reads this`objs, alloc`live
    {
      && (forall j :: k <= j < |objs| ==> alloc.Has(objs[j]))
      && (forall i, j :: k <= i < j < |objs| ==> objs[i].address != objs[j].address)
    }

    /** Gives up every block, first to last, as a run of the allocator; other tables keep what they hold. */
    method Free()
      requires Valid()
      modifies this, alloc, alloc.evictor, objs
      ensures Valid() && objs == [] && tokens == []
      ensures Kept(old(alloc.Abs()), alloc.Abs(), Addresses(old(objs)))
      ensures alloc.live == old(alloc.live) - Elements(Addresses(old(objs)))
      ensures Available(alloc.Abs()) >= Available(old(alloc.Abs()))
      ensures
        var ops := FreeOps(Addresses(old(objs)));
        LegalRun(old(alloc.Abs()), ops) && Run(old(alloc.Abs()), ops) == Ok(alloc.Abs())
    {
      hide *;
      FreeReady();
      ghost var mine, live := Addresses(objs), alloc.live;
      KeptSelf(alloc.Abs(), mine);
      FreeOpsNone(alloc.Abs());
      assert mine[..0] == [];
      for k := 0 to |objs|
        invariant objs == old(objs)
        invariant alloc.Valid() && DistinctFrom(k) && Kept(old(alloc.Abs()), alloc.Abs(), mine)
        invariant alloc.live == live - Elements(mine[..k])
        invariant Available(alloc.Abs()) >= Available(old(alloc.Abs()))
        invariant LegalRun(old(alloc.Abs()), FreeOps(mine[..k]))
        invariant Run(old(alloc.Abs()), FreeOps(mine[..k])) == Ok(alloc.Abs())
      {
        ghost var s := alloc.Abs();
        FreeBlock(k, old(alloc.Abs()));
        FreeOpsNext(old(alloc.Abs()), mine, k, s, alloc.Abs());
        ElementsPush(live, mine, k);
      }
      assert mine[..|objs|] == mine;
      objs, ids, numFull, tokens := [], [], 0, [];
      EmptyHolds();
    }

    lemma FreeReady()
      requires Valid()
      ensures alloc.Valid() && CollisionFree(alloc.cfg.mix) && DistinctFrom(0) && |Addresses(objs)| == |objs|
      ensures forall k :: 0 <= k < |objs| ==> Addresses(objs)[k] == objs[k].address
      ensures alloc.live == alloc.live - Elements(Addresses(objs)[..0])
    {
      forall i, j | 0 <= i < j < |objs| ensures objs[i].address != objs[j].address {
        assert Addresses(objs)[i] != Addresses(objs)[j];
      }
    }

    lemma EmptyHolds()
      requires CollisionFree(alloc.cfg.mix) && alloc.Valid() && objs == [] && ids == [] && tokens == [] && numFull == 0
      ensures Valid()
    {
    }

    // ---------- replacing placeholders ----------

    /** The table's first placeholder, at offset `j` of block `k`, becomes `token`. */
    method FillPlaceholder(k: nat, j: nat, token: TokenId)
      requires Holds(tokens) && k < |objs| && token != PLACEHOLDER_TOKEN
      requires FirstPlaceholder(tokens, alloc.cfg.blockSize, k * alloc.cfg.blockSize + j, k)
      requires OwnBlock(alloc.Abs(), objs[k].address)
      modifies alloc, alloc.evictor, objs[k]
      ensures alloc.Valid() && alloc.live == old(alloc.live)
      ensures Tabled(alloc.Abs(), Addresses(objs), tokens[k * alloc.cfg.blockSize + j := token])
      ensures Refilled(old(alloc.Abs()), alloc.Abs(), objs[k].address)
      ensures |objs[k].tokens| < alloc.cfg.blockSize ==> objs[k].blockId == old(objs[k].blockId)
    {
      ghost var s, addresses, p := alloc.Abs(), Addresses(objs), k * alloc.cfg.blockSize + j;
      BehindIsBefore(k, tokens);
      assert s.blocks[addresses[k]] == objs[k].Value();
      PlaceholderUnhashed(s, addresses, tokens, p, k);
      MayReplaceFirst(s, addresses, tokens, p, k, token);
      var r := alloc.ReplaceToken(objs[k], j, token);
      ReplacedRefilled(s, alloc.Abs(), addresses, tokens, p, k, token);
      assert alloc.Abs().blocks[addresses[k]] == objs[k].Value();
    }

    method RememberIfFull(k: nat, ghost held: seq<TokenId>)
      requires CollisionFree(alloc.cfg.mix) && alloc.Valid()
      requires Sequential(objs) && Owned() && Tabled(alloc.Abs(), Addresses(objs), held)
      requires k < |objs| == |ids| && forall j :: 0 <= j < |objs| && j != k ==> ids[j] == objs[j].blockId
      requires |objs[k].tokens| == alloc.cfg.blockSize || ids[k] == objs[k].blockId
      modifies this`ids, this`tokens
      ensures Holds(tokens) && tokens == held
    {
      hide Inv; hide Tabled; hide Sequential;
      if |objs[k].tokens| == alloc.cfg.blockSize {
        ids := ids[k := objs[k].blockId];
      }
      tokens := held;
    }

    lemma BlockWithin(k: nat, held: seq<TokenId>)
      requires alloc.Valid() && Owned() && Tabled(alloc.Abs(), Addresses(objs), held) && k < |objs|
      ensures |objs[k].tokens| <= alloc.cfg.blockSize
    {
      BlocksHold(alloc, objs, held);
      ChunkSize(held, alloc.cfg.blockSize, k);
    }

    method ReplaceAt(k: nat, j: nat, token: TokenId)
      requires Holds(tokens) && k < |objs| && token != PLACEHOLDER_TOKEN
      requires FirstPlaceholder(tokens, alloc.cfg.blockSize, k * alloc.cfg.blockSize + j, k)
      requires OwnBlock(alloc.Abs(), objs[k].address)
      modifies this`ids, this`tokens, alloc, alloc.evictor, objs[k]
      ensures Holds(tokens) && tokens == old(tokens)[k * alloc.cfg.blockSize + j := token]
      ensures Refilled(old(alloc.Abs()), alloc.Abs(), objs[k].address)
    {
      hide Inv; hide Tabled; hide Sequential; hide Refilled; hide OwnBlock; hide LRUEvictor.Valid; hide Suffixed;
      ghost var held := tokens[k * alloc.cfg.blockSize + j := token];
      DistinctObjects();
      FillPlaceholder(k, j, token);
      BlockWithin(k, held);
      RememberIfFull(k, held);
    }

    lemma TokenAt(p: nat, k: nat, j: nat)
      requires Holds(tokens) && Position(p, alloc.cfg.blockSize, k, j) && p < |tokens|
      ensures k < |objs| && j < |objs[k].tokens| && objs[k].tokens[j] == tokens[p]
      ensures |Addresses(objs)| == |objs| && Addresses(objs)[k] == objs[k].address
      ensures Tabled(alloc.Abs(), Addresses(objs), tokens)
    {
      assert alloc.cfg.blockSize > 0;
      PositionWithin(p, alloc.cfg.blockSize, k, j, |objs|);
      BlockHolds(k);
      ChunkPosition(tokens, alloc.cfg.blockSize, p, k, j);
    }

    /** One round of the replacing loop: position `start + i` is `j` in block `k`. */
    method ReplaceNext(k: nat, j: nat, token: TokenId, ghost n: seq<TokenId>, ghost start: nat, ghost ts: seq<TokenId>,
                       ghost i: nat, ghost hi: nat, ghost s0: State)
      requires Holds(tokens) && start + i < |n| && i < |ts| && tokens == Refill(n, start, ts, i)
      requires MayRefill(n, start) && Suffixed(n) && token == ts[i] && start + i < hi
      requires forall m :: 0 <= m <= i ==> ts[m] != PLACEHOLDER_TOKEN
      requires Position(start + i, alloc.cfg.blockSize, k, j)
      requires OwnBlocksIn(alloc.Abs(), Addresses(objs), start, hi) && Kept(s0, alloc.Abs(), Addresses(objs))
      modifies this`ids, this`tokens, alloc, alloc.evictor, objs
      ensures Holds(tokens) && tokens == Refill(n, start, ts, i + 1)
      ensures OwnBlocksIn(alloc.Abs(), Addresses(objs), start, hi) && Kept(s0, alloc.Abs(), Addresses(objs))
    {
      hide *;
      ghost var s, addresses, held := alloc.Abs(), Addresses(objs), tokens;
      RefillSize(n, start, ts, i);
      TokenAt(start + i, k, j);
      FirstPlaceholderAt(n, start, ts, i, alloc.cfg.blockSize, k, j);
      FilledStep(n, start, ts, i);
      OwnBlockAt(k, j, start, i, hi);
      PositionSum(start + i, alloc.cfg.blockSize, k, j);
      ReplaceAt(k, j, token);
      RefilledKeepsOwn(s, alloc.Abs(), addresses, held, start, hi, k);
      RefilledKept(s0, s, alloc.Abs(), addresses, k);
    }

    lemma OwnBlockAt(k: nat, j: nat, start: nat, i: nat, hi: nat)
      requires k < |objs| && Position(start + i, alloc.cfg.blockSize, k, j) && start + i < hi
      requires OwnBlocksIn(alloc.Abs(), Addresses(objs), start, hi)
      ensures OwnBlock(alloc.Abs(), objs[k].address)
    {
      assert (k + 1) * alloc.cfg.blockSize == k * alloc.cfg.blockSize + alloc.cfg.blockSize;
      assert Addresses(objs)[k] == objs[k].address;
    }

    /** A round with its two checks, which only the first round can fail. */
    method ReplaceRound(prevBlock: nat, prevToken: nat, k: nat, j: nat, token: TokenId, ghost n: seq<TokenId>,
                        ghost start: nat, ghost ts: seq<TokenId>, ghost i: nat, ghost hi: nat, ghost s0: State)
      returns (ok: bool)
      requires Holds(tokens) && 0 < start && start + i < |n| && i < |ts| && tokens == Refill(n, start, ts, i)
      requires (i > 0 ==> MayRefill(n, start)) && Suffixed(n) && token == ts[i] && start + i < hi
      requires forall m :: 0 <= m <= i ==> ts[m] != PLACEHOLDER_TOKEN
      requires Position(start + i - 1, alloc.cfg.blockSize, prevBlock, prevToken)
      requires Position(start + i, alloc.cfg.blockSize, k, j)
      requires OwnBlocksIn(alloc.Abs(), Addresses(objs), start, hi) && Kept(s0, alloc.Abs(), Addresses(objs))
      modifies this`ids, this`tokens, alloc, alloc.evictor, objs
      ensures Holds(tokens) && ok == MayRefill(n, start)
      ensures OwnBlocksIn(alloc.Abs(), Addresses(objs), start, hi) && Kept(s0, alloc.Abs(), Addresses(objs))
      ensures ok ==> tokens == Refill(n, start, ts, i + 1)
      ensures !ok ==> i == 0 && tokens == old(tokens) && alloc.Abs() == old(alloc.Abs())
    {
      hide *;
      RefillSize(n, start, ts, i);
      FilledStep(n, start, ts, i);
      TokenAt(start + i - 1, prevBlock, prevToken);
      TokenAt(start + i, k, j);
      RefillAt(n, start, i);
      if objs[prevBlock].tokens[prevToken] == PLACEHOLDER_TOKEN || objs[k].tokens[j] != PLACEHOLDER_TOKEN {
        return false;
      }
      ReplaceNext(k, j, token, n, start, ts, i, hi, s0);
      return true;
    }

    /** Replaces the first `count` of the `trailing` placeholders: exactly that slice changes. It refuses, and
        changes nothing, unless the slice is where the table's placeholders begin. */
    method ReplaceTrailingPlaceHolder(ts: seq<TokenId>, trailing: nat, count: nat) returns (r: Result<()>)
      requires Valid() && count <= |ts| && forall m :: 0 <= m < count ==> ts[m] != PLACEHOLDER_TOKEN
      requires OwnBlocksIn(alloc.Abs(), Addresses(objs), |tokens| - Min(trailing, |tokens|),
        |tokens| - Min(trailing, |tokens|) + count)
      modifies this`ids, this`tokens, alloc, alloc.evictor, objs
      ensures Valid() && Kept(old(alloc.Abs()), alloc.Abs(), Addresses(objs))
      ensures r == (if trailing < |old(tokens)| && count <= trailing
                       && (count > 0 ==> MayRefill(old(tokens), |old(tokens)| - trailing)) then Ok(()) else Err(Misuse))
      ensures r.Ok? ==> tokens == Refill(old(tokens), |old(tokens)| - trailing, ts, count)
      ensures r.Err? ==> tokens == old(tokens) && alloc.Abs() == old(alloc.Abs())
    {
      hide *;
      Sizes();
      ghost var s0, n := alloc.Abs(), tokens;
      KeptSelf(s0, Addresses(objs));
      var total := GetNumTokenIds();
      if trailing >= total || count > trailing {
        return Err(Misuse);
      }
      var size, start := alloc.cfg.blockSize, total - trailing;
      ghost var hi := start + count;
      assert start == |tokens| - Min(trailing, |tokens|) by { MinIs(trailing, |tokens|); }
      var prevBlock, prevToken := LocateBefore(start, size);
      RefillNone(n, start, ts);
      for i := 0 to count
        invariant objs == old(objs) && Holds(tokens) && tokens == Refill(n, start, ts, i)
        invariant i > 0 ==> MayRefill(n, start)
        invariant i == 0 ==> tokens == n && alloc.Abs() == s0
        invariant Position(start + i - 1, size, prevBlock, prevToken)
        invariant OwnBlocksIn(alloc.Abs(), Addresses(objs), start, hi) && Kept(s0, alloc.Abs(), Addresses(objs))
      {
        var k, j := Locate(start, size, i);
        var ok := ReplaceRound(prevBlock, prevToken, k, j, ts[i], n, start, ts, i, hi, s0);
        if !ok {
          Settled();
          return Err(Misuse);
        }
        prevBlock, prevToken := k, j;
      }
      RefillSize(n, start, ts, count);
      Settled();
      return Ok(());
    }
  }

  /** Block and offset of the position before `start`, and of the one `i` behind it. */
  method LocateBefore(start: nat, size: nat) returns (block: nat, offset: nat)
    requires size > 0 && start > 0
    ensures Position(start - 1, size, block, offset)
  {
    var startBlock, startLocal := start / size, start % size;
    PositionBefore(start, size);
    block := if startLocal == 0 then startBlock - 1 else startBlock;
    offset := if startLocal == 0 then size - 1 else startLocal - 1;
  }

  method Locate(start: nat, size: nat, i: nat) returns (block: nat, offset: nat)
    requires size > 0
    ensures Position(start + i, size, block, offset)
  {
    hide Position;
    var startBlock, startLocal := start / size, start % size;
    PositionStep(start, size, i);
    block, offset := startBlock + (startLocal + i) / size, (startLocal + i) % size;
  }

  /** Freeing the objects, first to last. */
  ghost function FreeOps(objs: seq<Obj>): seq<Op> {
    seq(|objs|, k requires 0 <= k < |objs| => OpFree(objs[k]))
  }

  lemma FreeOpsNone(s: State)
    ensures LegalRun(s, FreeOps([])) && Run(s, FreeOps([])) == Ok(s)
  {
  }

  lemma FreeOpsNext(s: State, objs: seq<Obj>, k: nat, t: State, u: State)
    requires k < |objs| && LegalRun(s, FreeOps(objs[..k])) && Run(s, FreeOps(objs[..k])) == Ok(t)
    requires objs[k] in t.blocks && PrefixCacheSpec.Free(t, objs[k]) == Ok(u)
    ensures LegalRun(s, FreeOps(objs[..k + 1])) && Run(s, FreeOps(objs[..k + 1])) == Ok(u)
  {
    var op := OpFree(objs[k]);
    assert FreeOps(objs[..k + 1]) == FreeOps(objs[..k]) + [op];
    RunApart(s, FreeOps(objs[..k]), t, [op]);
    RunStep(t, op, u, []);
    assert [op] + [] == [op];
  }

  lemma ElementsPush(live: map<Obj, BlockObj>, q: seq<Obj>, k: nat)
    requires k < |q|
    ensures live - Elements(q[..k]) - {q[k]} == live - Elements(q[..k + 1])
  {
    assert q[..k + 1] == q[..k] + [q[k]];
    assert Elements(q[..k + 1]) == Elements(q[..k]) + {q[k]};
  }

  lemma CopiesChain(live: map<Obj, BlockObj>, copies: seq<BlockObj>, addresses: seq<Obj>)
    requires Copies(live, copies, addresses)
    ensures Addresses(copies) == addresses && Sequential(copies) && |copies| == |addresses|
    ensures forall k :: 0 <= k < |copies| ==> copies[k].address in live && live[copies[k].address] == copies[k]
  {
  }
}
