/** Swapping a table's blocks between the allocators of two devices. */
module Swapping {
  import opened Basics
  import opened Arithmetic
  import opened Chunking
  import opened PrefixChain
  import opened LruEvictor
  import opened PrefixCacheSpec
  import opened PrefixCacheSteps
  import opened PrefixCacheOperations
  import opened PrefixCacheRuns
  import opened PrefixCacheAllocator
  import opened BlockTableSpec
  import opened BlockTableSteps
  import opened BlockTables
  import opened AppendAdmission
  import opened RankPlacement
  import opened CacheReuse

  /** The first `i` blocks' worth of tokens. */
  function Front(tokens: seq<TokenId>, blockSize: nat, i: nat): seq<TokenId> {
    tokens[..Min(i * blockSize, |tokens|)]
  }

  lemma FrontNext(tokens: seq<TokenId>, blockSize: nat, i: nat)
    requires blockSize > 0 && Suffixed(tokens)
    ensures Front(tokens, blockSize, i) + Chunk(tokens, blockSize, i) == Front(tokens, blockSize, i + 1)
    ensures |Chunk(tokens, blockSize, i)| <= blockSize && Suffixed(Front(tokens, blockSize, i + 1))
    ensures Chunk(tokens, blockSize, i) != [] ==> |Front(tokens, blockSize, i)| == i * blockSize
  {
    Scaled(i, i + 1, blockSize);
    ChunkSize(tokens, blockSize, i);
  }

  /** One of the objects is on `id`. */
  ghost predicate Under(s: State, objs: seq<Obj>, id: BlockId) {
    exists j :: 0 <= j < |objs| && objs[j] in s.blocks && s.blocks[objs[j]].id == id
  }

  predicate SameAt(a: map<BlockId, Chain>, b: map<BlockId, Chain>, id: BlockId) {
    (id in a <==> id in b) && (id in a ==> a[id] == b[id])
  }

  /** Since `s0`, memory changed under the ids of the objects only, and those that are not hashed are alone there. */
  ghost predicate Landed(s0: State, s: State, objs: seq<Obj>) {
    && (forall id :: !Under(s, objs, id) ==> SameAt(s0.memory, s.memory, id))
    && (forall j :: 0 <= j < |objs| && objs[j] in s.blocks && HashOf(s.cfg, s.blocks[objs[j]]) == INVALID_HASH_VALUE ==>
          Writable(s, objs[j]))
  }

  lemma LandedNone(s: State)
    ensures Landed(s, s, [])
  {
  }

  lemma LandedNext(s0: State, s: State, objs: seq<Obj>, a: Obj, b: Block, t: State)
    requires Landed(s0, s, objs) && forall j :: 0 <= j < |objs| ==> objs[j] in s.blocks
    requires PlaceOutcome(s, a, b, false, Ok(t)) && a !in s.blocks && Kept(s, t, [a])
    ensures Landed(s0, t, objs + [a])
  {
    hide InvHeld;
    var more := objs + [a];
    assert forall j :: 0 <= j < |objs| ==> more[j] == objs[j];
    assert more[|objs|] == a;
    forall j | 0 <= j < |objs| ensures objs[j] in t.blocks && t.blocks[objs[j]] == s.blocks[objs[j]] {
      assert KeptAt(s, t, objs[j]);
    }
    forall id | !Under(t, more, id) ensures SameAt(s0.memory, t.memory, id) {
      assert t.blocks[more[|objs|]].id != id;
      forall j | 0 <= j < |objs| && objs[j] in s.blocks ensures s.blocks[objs[j]].id != id {
        assert t.blocks[more[j]].id != id;
      }
      assert !Under(s, objs, id);
      assert SameAt(s0.memory, s.memory, id) && MemoryElsewhere(s, t, t.blocks[a].id) && id != t.blocks[a].id;
    }
    forall j | 0 <= j < |more| && more[j] in t.blocks && HashOf(t.cfg, t.blocks[more[j]]) == INVALID_HASH_VALUE
      ensures Writable(t, more[j])
    {
      if j < |objs| { assert KeptAt(s, t, objs[j]); }
    }
  }

  /** The first `i` blocks have arrived in `alloc`; `s0` is the state it started from. */
  ghost predicate Arrived(alloc: PrefixCacheBlockAllocator, s0: State, blocks: seq<BlockObj>, tokens: seq<TokenId>,
                          i: nat)
    requires i <= |blocks|
    reads alloc, alloc.evictor, alloc.live.Values
  {
    && alloc.Valid() && CollisionFree(alloc.cfg.mix) && Suffixed(tokens)
    && AreIn(alloc.live, blocks[..i])
    && Tabled(alloc.Abs(), Addresses(blocks[..i]), Front(tokens, alloc.cfg.blockSize, i))
    && SpentBy(s0, 0, alloc.Abs(), Addresses(blocks[..i])) && Landed(s0, alloc.Abs(), Addresses(blocks[..i]))
  }

  lemma ArrivedFacts(alloc: PrefixCacheBlockAllocator, s0: State, blocks: seq<BlockObj>, tokens: seq<TokenId>, i: nat)
    requires i <= |blocks| && Arrived(alloc, s0, blocks, tokens, i)
    ensures alloc.Valid() && CollisionFree(alloc.cfg.mix) && Inv(alloc.Abs()) && alloc.Abs().cfg == alloc.cfg
    ensures alloc.cfg.blockSize > 0 && Suffixed(tokens) && |Addresses(blocks[..i])| == i && |blocks[..i]| == i
    ensures Tabled(alloc.Abs(), Addresses(blocks[..i]), Front(tokens, alloc.cfg.blockSize, i))
    ensures SpentBy(s0, 0, alloc.Abs(), Addresses(blocks[..i])) && Available(alloc.Abs()) + i >= Available(s0)
    ensures AreIn(alloc.live, blocks[..i]) && Landed(s0, alloc.Abs(), Addresses(blocks[..i]))
    ensures forall j :: 0 <= j < i ==> Addresses(blocks[..i])[j] in alloc.Abs().blocks
    ensures Behind(Last(blocks[..i])) == Before(alloc.Abs(), Addresses(blocks[..i]), i)
    ensures alloc.live.Keys == alloc.Abs().blocks.Keys
  {
    hide InvHeld, SlotOk, Landed, Kept, LRUEvictor.Valid;
    SizePositive(alloc.Abs());
    assert alloc.Blocks().Keys == alloc.live.Keys;
    if i > 0 {
      assert blocks[..i][i - 1].address in alloc.live;
      assert alloc.Abs().blocks[blocks[..i][i - 1].address] == blocks[..i][i - 1].Value();
    }
  }

  lemma SizePositive(s: State)
    requires Inv(s)
    ensures s.cfg.blockSize > 0
  {
  }

  lemma ArrivedNext(alloc: PrefixCacheBlockAllocator, s0: State, blocks: seq<BlockObj>, b: BlockObj,
                    tokens: seq<TokenId>, i: nat, live: map<Obj, BlockObj>)
    requires i < |blocks| && blocks[i] == b && alloc.Linked() && Inv(alloc.Abs()) && CollisionFree(alloc.cfg.mix)
      && Suffixed(tokens)
    requires AreIn(live, blocks[..i]) && b.address !in live && alloc.live == live[b.address := b]
    requires Tabled(alloc.Abs(), Addresses(blocks[..i]) + [b.address], Front(tokens, alloc.cfg.blockSize, i + 1))
    requires SpentBy(s0, 0, alloc.Abs(), Addresses(blocks[..i]) + [b.address])
    requires Landed(s0, alloc.Abs(), Addresses(blocks[..i]) + [b.address])
    ensures Arrived(alloc, s0, blocks, tokens, i + 1)
  {
    hide Inv; hide Tabled; hide SpentBy; hide Suffixed; hide LRUEvictor.Valid; hide Landed;
    assert blocks[..i + 1] == blocks[..i] + [b];
    Push(blocks[..i], b);
    var more := blocks[..i + 1];
    forall k | 0 <= k < |more| ensures more[k].address in alloc.live && alloc.live[more[k].address] == more[k] {
      if k < i { assert more[k] == blocks[..i][k]; }
    }
  }

  /** The object allocated at `a` holds what was asked for. */
  lemma PlaceholderFacts(alloc: PrefixCacheBlockAllocator, b: BlockObj, live: map<Obj, BlockObj>, a: Obj, s: State,
                         placed: Block)
    requires alloc.Valid() && a !in live && alloc.live == live[a := b]
      && PlaceOutcome(s, a, placed, false, Ok(alloc.Abs()))
    ensures b.address == a && alloc.Has(b) && b.tokens == placed.tokens && b.extra == placed.extra
    ensures alloc.Linked() && Inv(alloc.Abs())
  {
    assert alloc.Abs().blocks[a] == b.Value();
  }

  lemma GrownKept(s: State, t: State, a: Obj, ts: seq<TokenId>)
    requires Grown(s, t, a, ts)
    ensures Kept(s, t, [a])
  {
  }

  lemma LiveReplaced(live: map<Obj, BlockObj>, a: Obj, b: BlockObj, c: BlockObj)
    ensures live[a := b][a := c] == live[a := c]
  {
  }

  /** The hashes of the first `n` blocks, walking back over the objects; 0 for a block that may not be shared. */
  ghost function WalkHashes(mix: Mixer, size: nat, objs: seq<BlockObj>, n: nat): (hs: seq<HashValue>)
    requires n <= |objs|
    reads objs`tokens
    ensures |hs| == n && forall k :: 0 <= k < n ==> hs[k] == PrefixHash(mix, size, Walked(objs, k + 1))
  {
    if n == 0 then [] else WalkHashes(mix, size, objs, n - 1) + [PrefixHash(mix, size, Walked(objs, n))]
  }

  lemma {:induction false} WalkSpan(objs: seq<BlockObj>, k: nat)
    requires k <= |objs|
    ensures Span(1, Walked(objs, k)) == k
  {
    if k > 0 { WalkSpan(objs, k - 1); }
  }

  lemma WalkHashesDiffer(mix: Mixer, size: nat, objs: seq<BlockObj>)
    requires CollisionFree(mix)
    ensures HashesDiffer(WalkHashes(mix, size, objs, |objs|))
  {
    hide CollisionFree, Walked, PrefixHash, Span, WalkHashes;
    var hs := WalkHashes(mix, size, objs, |objs|);
    forall j, k | 0 <= j < k < |hs| && hs[j] == hs[k] ensures hs[j] == INVALID_HASH_VALUE {
      WalkSpan(objs, j + 1);
      WalkSpan(objs, k + 1);
      LengthsApart(mix, size, Walked(objs, j + 1), Walked(objs, k + 1));
    }
  }

  lemma WalkNext(cfg: Config, objs: seq<BlockObj>, i: nat, prev: BlockObj?)
    requires i < |objs| && Behind(prev) == Walked(objs, i)
    ensures WalkHashes(cfg.mix, cfg.blockSize, objs, |objs|)[i]
         == HashOf(cfg, Block(Behind(prev), objs[i].tokens, objs[i].extra, 0))
    ensures Walked(objs, i + 1) == Link(Behind(prev), objs[i].tokens, objs[i].extra)
  {
  }

  lemma PlacedIs(s: State, t: State, o: Obj, b: Block)
    requires PlacedAs(s, t, o, b)
    ensures PlaceOutcome(s, o, b, false, Ok(t))
  {
  }

  lemma ChainIs(b: BlockObj)
    ensures b.Chain() == Link(b.before, b.tokens, b.extra)
  {
  }

  lemma FrontAddresses(blocks: seq<BlockObj>, i: nat)
    requires i < |blocks|
    ensures Addresses(blocks[..i + 1]) == Addresses(blocks[..i]) + [blocks[i].address]
    ensures Last(blocks[..i + 1]) == blocks[i] && Behind(blocks[i]) == blocks[i].Chain()
  {
    assert blocks[..i + 1] == blocks[..i] + [blocks[i]];
  }

  /** Allocates for the next block and moves it to the new id. */
  method SwapInBlock(alloc: PrefixCacheBlockAllocator, ghost blocks: seq<BlockObj>, ghost i: nat, block: BlockObj,
                     ghost s0: State, ghost tokens: seq<TokenId>, ghost hs: seq<HashValue>) returns (r: Result<()>)
    requires i < |blocks| && block == blocks[i] && Arrived(alloc, s0, blocks, tokens, i)
    requires block.tokens == Chunk(tokens, alloc.cfg.blockSize, i) && block.prev == Last(blocks[..i])
    requires block.address !in alloc.live && Inv(s0) && s0.cfg == alloc.cfg && |hs| == |blocks| && HashesDiffer(hs)
    requires Reused(s0, alloc.Abs(), Addresses(blocks[..i]), hs[..i])
    requires hs[i] == HashOf(alloc.cfg, Block(Behind(block.prev), block.tokens, block.extra, 0))
    modifies alloc, alloc.evictor, block`before, block`blockId
    ensures match r
      case Err(e) => e == Exhausted && Available(s0) < Uncovered(s0, hs)
      case Ok(_) =>
        && Arrived(alloc, s0, blocks, tokens, i + 1) && alloc.live == old(alloc.live)[block.address := block]
        && Reused(s0, alloc.Abs(), Addresses(blocks[..i + 1]), hs[..i + 1])
        && block.Chain() == Link(old(Behind(block.prev)), block.tokens, block.extra)
  {
    hide *;
    ghost var s, addresses, live, front := alloc.Abs(), Addresses(blocks[..i]), alloc.live,
      Front(tokens, alloc.cfg.blockSize, i);
    ghost var ts, a, placed := block.tokens, block.address, Block(Behind(block.prev), block.tokens, block.extra, 0);
    DifferPrefix(hs, i);
    ArrivedFacts(alloc, s0, blocks, tokens, i);
    FrontNext(tokens, alloc.cfg.blockSize, i);
    MayPlaceNext(s, addresses, front, a, ts, block.extra);
    var b := AllocateBlock(alloc, block.tokens, block.prev, block.extra, a);
    if b.Err? {
      RefusedFails(s0, s, addresses, hs, i, placed);
      return Err(b.error);
    }
    PlacedIs(s, alloc.Abs(), a, placed);
    ReusedNext(s0, s, addresses, hs[..i], alloc.Abs(), a, placed);
    PlacedGrown(s, alloc.Abs(), addresses, front, a, ts, block.extra);
    PlaceholderFacts(alloc, b.value, live, a, s, Block(Before(s, addresses, i), ts, block.extra, 0));
    SpentByOne(s0, 0, s, addresses, alloc.Abs(), a, ts);
    GrownKept(s, alloc.Abs(), a, ts);
    LandedNext(s0, s, addresses, a, Block(Before(s, addresses, i), ts, block.extra, 0), alloc.Abs());
    LiveReplaced(live, a, b.value, block);
    PlacedChain(alloc, b.value, s, placed);
    ChainIs(b.value);
    alloc.Adopt(block, b.value);
    ChainIs(block);
    ArrivedNext(alloc, s0, blocks, block, tokens, i, live);
    FrontAddresses(blocks, i);
    return Ok(());
  }

  // ---------- leaving ----------

  /** The objects from `k` on still hold their ids; everything not in the table is as it was. */
  ghost predicate Leaving(alloc: PrefixCacheBlockAllocator, s0: State, live: map<Obj, BlockObj>, blocks: seq<BlockObj>,
                          k: nat)
    reads alloc, alloc.evictor, alloc.live.Values
  {
    && alloc.Valid() && k <= |blocks| && AreIn(live, blocks)
    && (forall i, j :: 0 <= i < j < |blocks| ==> blocks[i].address != blocks[j].address)
    && Kept(s0, alloc.Abs(), Addresses(blocks)) && Available(alloc.Abs()) >= Available(s0)
    && alloc.Abs().memory == s0.memory
    && alloc.live == live - Elements(Addresses(blocks)[..k])
  }

  method SwapOutBlock(alloc: PrefixCacheBlockAllocator, block: BlockObj, ghost s0: State,
                      ghost live: map<Obj, BlockObj>, ghost blocks: seq<BlockObj>, ghost k: nat)
    requires k < |blocks| && block == blocks[k] && Leaving(alloc, s0, live, blocks, k)
    modifies alloc, alloc.evictor, block`blockId
    ensures Leaving(alloc, s0, live, blocks, k + 1)
    ensures block.address in old(alloc.Abs()).blocks
    ensures PrefixCacheSpec.Free(old(alloc.Abs()), block.address) == Ok(alloc.Abs())
  {
    hide *;
    LeavingFacts(alloc, s0, live, blocks, k);
    ghost var s := alloc.Abs();
    var r := alloc.Free(block);
    FreeStep(s0, Addresses(blocks), s, block.address, alloc.Abs());
    ElementsPush(live, Addresses(blocks), k);
    LeavingNext(alloc, s0, live, blocks, k);
  }

  lemma LeavingFacts(alloc: PrefixCacheBlockAllocator, s0: State, live: map<Obj, BlockObj>, blocks: seq<BlockObj>,
                     k: nat)
    requires k < |blocks| && Leaving(alloc, s0, live, blocks, k)
    ensures alloc.Valid() && Inv(alloc.Abs()) && alloc.Has(blocks[k]) && blocks[k].address in alloc.Abs().blocks
    ensures AreIn(live, blocks) && alloc.live == live - Elements(Addresses(blocks)[..k])
    ensures forall i, j :: 0 <= i < j < |blocks| ==> blocks[i].address != blocks[j].address
    ensures Kept(s0, alloc.Abs(), Addresses(blocks)) && Available(alloc.Abs()) >= Available(s0)
    ensures alloc.Abs().memory == s0.memory
    ensures |Addresses(blocks)| == |blocks| && Addresses(blocks)[k] == blocks[k].address
      && blocks[k].address in Addresses(blocks)
  {
    assert Addresses(blocks)[k] == blocks[k].address;
    assert forall j :: 0 <= j < k ==> Addresses(blocks)[..k][j] == blocks[j].address;
    assert alloc.Blocks().Keys == alloc.live.Keys;
  }

  lemma LeavingNext(alloc: PrefixCacheBlockAllocator, s0: State, live: map<Obj, BlockObj>, blocks: seq<BlockObj>,
                    k: nat)
    requires k < |blocks| && alloc.Valid() && AreIn(live, blocks)
    requires forall i, j :: 0 <= i < j < |blocks| ==> blocks[i].address != blocks[j].address
    requires Kept(s0, alloc.Abs(), Addresses(blocks)) && Available(alloc.Abs()) >= Available(s0)
    requires alloc.Abs().memory == s0.memory
    requires alloc.live == live - Elements(Addresses(blocks)[..k + 1])
    ensures Leaving(alloc, s0, live, blocks, k + 1)
  {
  }

  // ---------- the swap ----------

  /** All ids of the allocator belong to the device. */
  predicate Serves(cfg: Config, device: DeviceType, beginCpuBlockId: BlockId) {
    IdsBelong(cfg.begin, cfg.num, device, beginCpuBlockId)
  }

  lemma ServesItsIds(cfg: Config, device: DeviceType, beginCpuBlockId: BlockId, id: BlockId)
    requires Serves(cfg, device, beginCpuBlockId) && InRange(cfg, id)
    ensures DeviceOf(id, beginCpuBlockId) == device
  {
  }

  /** The table's blocks, as they are in `alloc`. */
  ghost predicate Resides(alloc: PrefixCacheBlockAllocator, blocks: seq<BlockObj>, tokens: seq<TokenId>)
    reads alloc, alloc.evictor, alloc.live.Values
  {
    && alloc.Valid() && CollisionFree(alloc.cfg.mix) && Sequential(blocks) && AreIn(alloc.live, blocks)
    && Tabled(alloc.Abs(), Addresses(blocks), tokens)
  }

  /** Blocks without ids, still in order and still holding their tokens. */
  ghost predicate Detached(blocks: seq<BlockObj>, tokens: seq<TokenId>, blockSize: nat)
    reads blocks`tokens
  {
    && Sequential(blocks) && Suffixed(tokens) && |tokens| <= |blocks| * blockSize
    && (forall k :: 0 <= k < |blocks| ==> blocks[k].tokens == Chunk(tokens, blockSize, k))
    && (forall i, j :: 0 <= i < j < |blocks| ==> blocks[i].address != blocks[j].address)
  }

  lemma ResidesFacts(alloc: PrefixCacheBlockAllocator, blocks: seq<BlockObj>, tokens: seq<TokenId>)
    requires Resides(alloc, blocks, tokens)
    ensures alloc.Valid() && Suffixed(tokens) && Sequential(blocks)
    ensures Leaving(alloc, alloc.Abs(), alloc.live, blocks, 0)
    ensures forall k :: 0 <= k < |blocks| ==>
      blocks[k].tokens == Chunk(tokens, alloc.cfg.blockSize, k) && InRange(alloc.cfg, blocks[k].blockId)
      && blocks[k].address in alloc.live
    ensures |tokens| <= |blocks| * alloc.cfg.blockSize && alloc.cfg.blockSize > 0
    ensures Detached(blocks, tokens, alloc.cfg.blockSize)
    ensures forall i, j :: 0 <= i < |blocks| && 0 <= j < |blocks| && i != j ==> blocks[i] != blocks[j]
  {
    BlocksHold(alloc, blocks, tokens);
    forall i, j | 0 <= i < j < |blocks| ensures blocks[i].address != blocks[j].address {
      assert Addresses(blocks)[i] != Addresses(blocks)[j];
    }
    KeptSelf(alloc.Abs(), Addresses(blocks));
    forall k | 0 <= k < |blocks| ensures InRange(alloc.cfg, blocks[k].blockId) {
      assert blocks[k].address in alloc.live;
      assert alloc.Abs().blocks[blocks[k].address] == blocks[k].Value();
    }
    assert Elements(Addresses(blocks)[..0]) == {};
    assert alloc.live - {} == alloc.live;
  }

  /** Every block gives up its id, first to last, as a run of the allocator. */
  method SwapOut(alloc: PrefixCacheBlockAllocator, blocks: seq<BlockObj>, ghost tokens: seq<TokenId>)
    requires Resides(alloc, blocks, tokens)
    modifies alloc, alloc.evictor, blocks`blockId
    ensures Leaving(alloc, old(alloc.Abs()), old(alloc.live), blocks, |blocks|)
    ensures
      var ops := FreeOps(Addresses(blocks));
      LegalRun(old(alloc.Abs()), ops) && Run(old(alloc.Abs()), ops) == Ok(alloc.Abs())
  {
    hide *;
    ResidesFacts(alloc, blocks, tokens);
    ghost var s0, mine := alloc.Abs(), Addresses(blocks);
    FreeOpsNone(s0);
    NoAddresses(blocks);
    for k := 0 to |blocks|
      invariant Leaving(alloc, s0, old(alloc.live), blocks, k)
      invariant LegalRun(s0, FreeOps(mine[..k])) && Run(s0, FreeOps(mine[..k])) == Ok(alloc.Abs())
    {
      ghost var s := alloc.Abs();
      SwapOutBlock(alloc, blocks[k], s0, old(alloc.live), blocks, k);
      FreeOpsNext(s0, mine, k, s, alloc.Abs());
    }
    assert mine[..|blocks|] == mine;
  }

  lemma NoAddresses(blocks: seq<BlockObj>)
    ensures |Addresses(blocks)| == |blocks| && Addresses(blocks)[..0] == []
    ensures forall k :: 0 <= k < |blocks| ==> Addresses(blocks)[k] == blocks[k].address
  {
  }

  lemma DetachedAt(blocks: seq<BlockObj>, tokens: seq<TokenId>, blockSize: nat, k: nat)
    requires Detached(blocks, tokens, blockSize) && k < |blocks|
    ensures blocks[k].tokens == Chunk(tokens, blockSize, k) && blocks[k].prev == Last(blocks[..k])
    ensures forall j :: k < j < |blocks| ==> blocks[j].address != blocks[k].address
  {
    if k > 0 { assert blocks[k].prev == blocks[k - 1]; }
  }

  lemma NoneArrived(alloc: PrefixCacheBlockAllocator, blocks: seq<BlockObj>, tokens: seq<TokenId>, blockSize: nat)
    requires alloc.Valid() && CollisionFree(alloc.cfg.mix) && Detached(blocks, tokens, blockSize)
    ensures Arrived(alloc, alloc.Abs(), blocks, tokens, 0) && Inv(alloc.Abs()) && alloc.Abs().cfg == alloc.cfg
    ensures Reused(alloc.Abs(), alloc.Abs(), Addresses(blocks[..0]), [])
    ensures Behind(Last(blocks[..0])) == Walked(blocks, 0)
  {
    assert blocks[..0] == [];
    ReusedNone(alloc.Abs());
    KeptSelf(alloc.Abs(), []);
    LandedNone(alloc.Abs());
  }

  /** Every block gets an id for its own tokens. It fails exactly if the ids left do not cover the blocks whose content
      nobody uses; blocks that are cached arrive where they are cached as long as the free ids last. */
  method SwapIn(alloc: PrefixCacheBlockAllocator, blocks: seq<BlockObj>, ghost tokens: seq<TokenId>)
    returns (r: Result<()>)
    requires alloc.Valid() && CollisionFree(alloc.cfg.mix) && Detached(blocks, tokens, alloc.cfg.blockSize)
    requires forall k :: 0 <= k < |blocks| ==> blocks[k].address !in alloc.live
    modifies alloc, alloc.evictor, blocks`before, blocks`blockId
    ensures
      var hs := WalkHashes(alloc.cfg.mix, alloc.cfg.blockSize, blocks, |blocks|);
      match r
      case Err(e) => e == Exhausted && Available(old(alloc.Abs())) < Uncovered(old(alloc.Abs()), hs) <= |blocks|
      case Ok(_) =>
        && Arrived(alloc, old(alloc.Abs()), blocks, tokens, |blocks|)
        && Reused(old(alloc.Abs()), alloc.Abs(), Addresses(blocks), hs)
  {
    hide *;
    ghost var s0, n := alloc.Abs(), |blocks|;
    ghost var hs := WalkHashes(alloc.cfg.mix, alloc.cfg.blockSize, blocks, n);
    WalkHashesDiffer(alloc.cfg.mix, alloc.cfg.blockSize, blocks);
    UncoveredBound(s0, hs);
    NoneArrived(alloc, blocks, tokens, alloc.cfg.blockSize);
    assert hs[..0] == [];
    for i := 0 to |blocks|
      invariant Arrived(alloc, s0, blocks, tokens, i)
      invariant forall k :: i <= k < |blocks| ==> blocks[k].address !in alloc.live
      invariant Detached(blocks, tokens, alloc.cfg.blockSize)
      invariant Reused(s0, alloc.Abs(), Addresses(blocks[..i]), hs[..i])
      invariant Behind(Last(blocks[..i])) == Walked(blocks, i)
      invariant hs == WalkHashes(alloc.cfg.mix, alloc.cfg.blockSize, blocks, n)
    {
      DetachedAt(blocks, tokens, alloc.cfg.blockSize, i);
      WalkNext(alloc.cfg, blocks, i, Last(blocks[..i]));
      FrontAddresses(blocks, i);
      r := SwapInBlock(alloc, blocks, i, blocks[i], s0, tokens, hs);
      if r.Err? {
        return;
      }
      FrontAddresses(blocks, i);
    }
    assert blocks[..|blocks|] == blocks && hs[..|blocks|] == hs;
    return Ok(());
  }

  /** The ids of the blocks, provided they all are on the device. */
  method IdsOn(blocks: seq<BlockObj>, device: DeviceType, beginCpuBlockId: BlockId) returns (r: Result<seq<BlockId>>)
    ensures r.Ok? <==> forall k :: 0 <= k < |blocks| ==> DeviceOf(blocks[k].blockId, beginCpuBlockId) == device
    ensures r.Ok? ==> |r.value| == |blocks| && forall k :: 0 <= k < |blocks| ==> r.value[k] == blocks[k].blockId
    ensures r.Err? ==> r.error == Misuse
  {
    var ids := [];
    for k := 0 to |blocks|
      invariant |ids| == k
      invariant forall j :: 0 <= j < k ==>
        ids[j] == blocks[j].blockId && DeviceOf(blocks[j].blockId, beginCpuBlockId) == device
    {
      if DeviceOf(blocks[k].blockId, beginCpuBlockId) != device {
        return Err(Misuse);
      }
      ids := ids + [blocks[k].blockId];
    }
    return Ok(ids);
  }

  method Pairs(srcIds: seq<BlockId>, dstIds: seq<BlockId>) returns (pairs: seq<(BlockId, BlockId)>)
    requires |srcIds| == |dstIds|
    ensures |pairs| == |srcIds| && forall k :: 0 <= k < |pairs| ==> pairs[k] == (srcIds[k], dstIds[k])
  {
    pairs := [];
    for k := 0 to |srcIds|
      invariant |pairs| == k && forall j :: 0 <= j < k ==> pairs[j] == (srcIds[j], dstIds[j])
    {
      pairs := pairs + [(srcIds[k], dstIds[k])];
    }
  }

  // ---------- what the mapping is for ----------

  /** Objects of one table that hold known tokens hold the same content on both devices. */
  lemma {:induction false} SameContent(s: State, t: State, objs: seq<Obj>, tokens: seq<TokenId>, k: nat)
    requires Tabled(s, objs, tokens) && Tabled(t, objs, tokens) && s.cfg.blockSize == t.cfg.blockSize > 0
    requires forall j :: 0 <= j < |objs| ==> s.blocks[objs[j]].extra == t.blocks[objs[j]].extra
    requires k < |objs| && Known(s.blocks[objs[k]].tokens) != []
    ensures s.blocks[objs[k]] == t.blocks[objs[k]].(id := s.blocks[objs[k]].id)
    decreases k
  {
    assert SlotOk(s, objs, tokens, k) && SlotOk(t, objs, tokens, k);
    if k > 0 {
      KnownAllBefore(tokens, s.cfg.blockSize, k);
      assert SlotOk(s, objs, tokens, k - 1);
      SameContent(s, t, objs, tokens, k - 1);
    }
  }

  /** The blocks of a table that has landed are on different ids. */
  lemma IdsApart(s0: State, t: State, objs: seq<Obj>, tokens: seq<TokenId>, i: nat, j: nat)
    requires CollisionFree(t.cfg.mix) && Inv(t) && Tabled(t, objs, tokens) && Landed(s0, t, objs)
    requires i < j < |objs|
    ensures t.blocks[objs[i]].id != t.blocks[objs[j]].id
  {
    hide Tabled, SameAt, Partitioned;
    TabledFacts(t, objs, tokens);
    var o, p := objs[i], objs[j];
    if t.blocks[o].id == t.blocks[p].id {
      if HashOf(t.cfg, t.blocks[o]) == INVALID_HASH_VALUE || HashOf(t.cfg, t.blocks[p]) == INVALID_HASH_VALUE {
        assert Writable(t, o) || Writable(t, p);
        assert {o, p} <= Holders(t.blocks, t.blocks[o].id);
        SubsetSize({o, p}, Holders(t.blocks, t.blocks[o].id));
      } else {
        SameHash(t, o, p);
        SpanIs(t, objs, tokens, i, 1);
        SpanIs(t, objs, tokens, j, 1);
      }
    }
  }

  /** Two hashed blocks on one id have one chain. */
  lemma SameHash(t: State, o: Obj, p: Obj)
    requires CollisionFree(t.cfg.mix) && Inv(t) && o in t.blocks && p in t.blocks && t.blocks[o].id == t.blocks[p].id
    requires HashOf(t.cfg, t.blocks[o]) != INVALID_HASH_VALUE && HashOf(t.cfg, t.blocks[p]) != INVALID_HASH_VALUE
    ensures ChainOf(t.blocks[o]) == ChainOf(t.blocks[p])
    ensures Known(t.blocks[o].tokens) != [] && Known(t.blocks[p].tokens) != []
  {
    BlockFact(t, None, o);
    ChainHashInjective(t.cfg.mix, t.cfg.blockSize, ChainOf(t.blocks[o]), ChainOf(t.blocks[p]));
    KnownWhole(t.cfg, t.blocks[o]);
    KnownWhole(t.cfg, t.blocks[p]);
  }

  lemma TabledFacts(t: State, objs: seq<Obj>, tokens: seq<TokenId>)
    requires Tabled(t, objs, tokens)
    ensures forall k :: 0 <= k < |objs| ==> objs[k] in t.blocks
    ensures forall j, k :: 0 <= j < k < |objs| ==> objs[j] != objs[k]
  {
  }

  /** Somebody reads this id: a block with known tokens, or the cache. */
  ghost predicate Read(t: State, id: BlockId) {
    || (exists p :: p in t.blocks && t.blocks[p].id == id && Known(t.blocks[p].tokens) != [])
    || (exists h :: h in t.cached && t.cached[h] == id)
  }

  /** Nobody reads the id of a landed block without known tokens. */
  lemma UnreadId(s0: State, t: State, objs: seq<Obj>, k: nat)
    requires Inv(t) && Landed(s0, t, objs) && k < |objs| && objs[k] in t.blocks
    requires Known(t.blocks[objs[k]].tokens) == []
    ensures !Read(t, t.blocks[objs[k]].id)
  {
    hide SameAt, Partitioned;
    var o := objs[k];
    var id := t.blocks[o].id;
    assert Writable(t, o);
    forall p | p in t.blocks && t.blocks[p].id == id ensures p == o {
      assert {o, p} <= Holders(t.blocks, id);
      SubsetSize({o, p}, Holders(t.blocks, id));
    }
  }

  /** What the pairs lead from and to: the ids of the objects on both devices. */
  ghost predicate Mapped(s: State, t: State, objs: seq<Obj>, pairs: seq<(BlockId, BlockId)>) {
    && |pairs| == |objs|
    && forall k :: 0 <= k < |objs| ==>
         && objs[k] in s.blocks && objs[k] in t.blocks && s.blocks[objs[k]].extra == t.blocks[objs[k]].extra
         && pairs[k] == (s.blocks[objs[k]].id, t.blocks[objs[k]].id)
  }

  lemma CarriedRead(s: State, m: map<BlockId, Chain>, s0: State, t: State, objs: seq<Obj>, tokens: seq<TokenId>,
                    pairs: seq<(BlockId, BlockId)>, id: BlockId)
    requires Inv(s.(memory := m)) && Tabled(s, objs, tokens) && s.cfg.blockSize == t.cfg.blockSize
    requires CollisionFree(t.cfg.mix) && Inv(t) && Tabled(t, objs, tokens) && Landed(s0, t, objs)
    requires Mapped(s, t, objs, pairs) && Read(t, id) && id in t.memory
    ensures SameAt(Carried(m, s0.memory, pairs), t.memory, id)
  {
    hide Tabled, InvHeld, Carried, Known;
    if Under(t, objs, id) {
      var k :| 0 <= k < |objs| && objs[k] in t.blocks && t.blocks[objs[k]].id == id;
      if Known(t.blocks[objs[k]].tokens) == [] { UnreadId(s0, t, objs, k); }
      forall i, j | 0 <= i < j < |pairs| ensures pairs[i].1 != pairs[j].1 { IdsApart(s0, t, objs, tokens, i, j); }
      CarriedContent(s, m, t, objs, tokens, k);
      CarriedAt(m, s0.memory, pairs, k);
    } else {
      CarriedElsewhere(m, s0.memory, pairs, id);
    }
  }

  lemma CarriedContent(s: State, m: map<BlockId, Chain>, t: State, objs: seq<Obj>, tokens: seq<TokenId>, k: nat)
    requires Inv(s.(memory := m)) && Inv(t) && Tabled(s, objs, tokens) && Tabled(t, objs, tokens)
    requires s.cfg.blockSize == t.cfg.blockSize && k < |objs| && Known(t.blocks[objs[k]].tokens) != []
    requires forall j :: 0 <= j < |objs| ==> s.blocks[objs[j]].extra == t.blocks[objs[j]].extra
    ensures s.blocks[objs[k]].id in m && t.blocks[objs[k]].id in t.memory
    ensures m[s.blocks[objs[k]].id] == t.memory[t.blocks[objs[k]].id]
  {
    SameContent(t, s, objs, tokens, k);
    BlockFact(s.(memory := m), None, objs[k]);
    BlockFact(t, None, objs[k]);
  }

  /** An invariant holds over any memory that shows the same to everybody who reads. */
  lemma ReadersSuffice(t: State, w: map<BlockId, Chain>)
    requires Inv(t) && forall id :: Read(t, id) && id in t.memory ==> SameAt(w, t.memory, id)
    ensures Inv(t.(memory := w))
  {
    hide Known;
    var u := t.(memory := w);
    forall h | h in u.cached ensures EntryOk(u, h) {
      EntryFact(t, None, h);
      assert Read(t, t.cached[h]);
    }
    forall o | o in u.blocks ensures BlockOk(u, o) {
      BlockFact(t, None, o);
      if Known(t.blocks[o].tokens) != [] { assert Read(t, t.blocks[o].id); }
    }
  }

  /** Carrying the pairs over gives the other device all it has to hold: the content of every block that came,
      where its new id leads, and nobody else's is overwritten. Nothing is computed again. */
  lemma SwapCarries(s: State, m: map<BlockId, Chain>, s0: State, t: State, objs: seq<Obj>, tokens: seq<TokenId>,
                    pairs: seq<(BlockId, BlockId)>)
    requires Inv(s.(memory := m)) && Tabled(s, objs, tokens) && s.cfg.blockSize == t.cfg.blockSize
    requires CollisionFree(t.cfg.mix) && Inv(t) && Tabled(t, objs, tokens) && Landed(s0, t, objs)
    requires Mapped(s, t, objs, pairs)
    ensures Inv(t.(memory := Carried(m, s0.memory, pairs)))
  {
    hide *;
    forall id | Read(t, id) && id in t.memory ensures SameAt(Carried(m, s0.memory, pairs), t.memory, id) {
      CarriedRead(s, m, s0, t, objs, tokens, pairs, id);
    }
    ReadersSuffice(t, Carried(m, s0.memory, pairs));
  }

  /** Out of one allocator and into the other; the objects stay. */
  method Move(src: PrefixCacheBlockAllocator, dst: PrefixCacheBlockAllocator, blocks: seq<BlockObj>,
              ghost tokens: seq<TokenId>) returns (r: Result<()>)
    requires src != dst && src.evictor != dst.evictor && src.cfg.blockSize == dst.cfg.blockSize
    requires Resides(src, blocks, tokens) && dst.Valid() && CollisionFree(dst.cfg.mix)
    requires forall k :: 0 <= k < |blocks| ==> blocks[k].address !in dst.live
    modifies src, src.evictor, dst, dst.evictor, blocks`before, blocks`blockId
    ensures
      var hs := WalkHashes(dst.cfg.mix, dst.cfg.blockSize, blocks, |blocks|);
      match r
      case Err(e) => e == Exhausted && Available(old(dst.Abs())) < Uncovered(old(dst.Abs()), hs) <= |blocks|
      case Ok(_) => Reused(old(dst.Abs()), dst.Abs(), Addresses(blocks), hs)
    ensures r.Ok? ==> Resides(dst, blocks, tokens) && Leaving(src, old(src.Abs()), old(src.live), blocks, |blocks|)
    ensures r.Ok? ==> Kept(old(dst.Abs()), dst.Abs(), []) && Landed(old(dst.Abs()), dst.Abs(), Addresses(blocks))
    ensures r.Ok? ==> Run(old(src.Abs()), FreeOps(Addresses(blocks))) == Ok(src.Abs())
  {
    hide *;
    ResidesFacts(src, blocks, tokens);
    NotAmong(dst, blocks);
    SwapOut(src, blocks, tokens);
    LeftApart(src, old(src.Abs()), old(src.live), blocks);
    r := SwapIn(dst, blocks, tokens);
    if r.Ok? {
      ResidesNow(dst, old(dst.Abs()), blocks, tokens);
    }
  }

  /** Moves a table's blocks to the other device. The objects, their order and their tokens stay; each gets
      an id of the other device, that of its content if that is cached there and free ids last, and everything else
      on both devices is as it was. Only a lack of ids for content that nobody uses there stops it.
      Carrying the pairs over, from whatever memory the one device has to hold, gives the other all it has to. */
  method Swap(src: PrefixCacheBlockAllocator, dst: PrefixCacheBlockAllocator, blocks: seq<BlockObj>,
              srcDevice: DeviceType, dstDevice: DeviceType, beginCpuBlockId: BlockId, ghost tokens: seq<TokenId>)
    returns (r: Result<seq<(BlockId, BlockId)>>)
    requires src != dst && src.evictor != dst.evictor && src.cfg.blockSize == dst.cfg.blockSize
    requires Resides(src, blocks, tokens) && dst.Valid() && CollisionFree(dst.cfg.mix)
    requires Serves(dst.cfg, dstDevice, beginCpuBlockId)
    requires forall k :: 0 <= k < |blocks| ==> blocks[k].address !in dst.live
    modifies src, src.evictor, dst, dst.evictor, blocks`before, blocks`blockId
    ensures r == Err(Misuse) <==> exists k ::
      0 <= k < |blocks| && old(DeviceOf(blocks[k].blockId, beginCpuBlockId)) != srcDevice
    ensures r.Err? && r.error != Misuse ==>
      var hs := WalkHashes(dst.cfg.mix, dst.cfg.blockSize, blocks, |blocks|);
      r.error == Exhausted && Available(old(dst.Abs())) < Uncovered(old(dst.Abs()), hs) <= |blocks|
    ensures r.Ok? ==>
      Reused(old(dst.Abs()), dst.Abs(), Addresses(blocks),
             WalkHashes(dst.cfg.mix, dst.cfg.blockSize, blocks, |blocks|))
    ensures r.Ok? ==> |r.value| == |blocks| && forall k :: 0 <= k < |blocks| ==>
      && r.value[k] == (old(blocks[k].blockId), blocks[k].blockId)
      && InRange(dst.cfg, r.value[k].1) && DeviceOf(r.value[k].1, beginCpuBlockId) == dstDevice
    ensures r.Ok? ==> Resides(dst, blocks, tokens) && Leaving(src, old(src.Abs()), old(src.live), blocks, |blocks|)
    ensures r.Ok? ==> Kept(old(dst.Abs()), dst.Abs(), [])
    ensures r.Ok? ==> Run(old(src.Abs()), FreeOps(Addresses(blocks))) == Ok(src.Abs())
    ensures r.Ok? ==> CarriesOver(old(src.Abs()), old(dst.Abs()), dst.Abs(), r.value)
  {
    hide *;
    ghost var s, s0 := src.Abs(), dst.Abs();
    OnDevice(src, blocks, tokens);
    var srcIds := IdsOn(blocks, srcDevice, beginCpuBlockId);
    if srcIds.Err? {
      return Err(srcIds.error);
    }
    var moved := Move(src, dst, blocks, tokens);
    if moved.Err? {
      return Err(moved.error);
    }
    var pairs := PairUp(dst, blocks, srcIds.value, dstDevice, beginCpuBlockId, tokens, s, s0);
    return Ok(pairs);
  }

  /** The mapping, once the blocks have arrived. */
  method PairUp(dst: PrefixCacheBlockAllocator, blocks: seq<BlockObj>, srcIds: seq<BlockId>, dstDevice: DeviceType,
                beginCpuBlockId: BlockId, ghost tokens: seq<TokenId>, ghost s: State, ghost s0: State)
    returns (pairs: seq<(BlockId, BlockId)>)
    requires Resides(dst, blocks, tokens) && Serves(dst.cfg, dstDevice, beginCpuBlockId)
    requires |srcIds| == |blocks| == |Addresses(blocks)| && s.cfg.blockSize == dst.cfg.blockSize
    requires Tabled(s, Addresses(blocks), tokens) && Landed(s0, dst.Abs(), Addresses(blocks))
    requires forall k :: 0 <= k < |blocks| ==>
      && Addresses(blocks)[k] in s.blocks && s.blocks[Addresses(blocks)[k]].extra == blocks[k].extra
      && s.blocks[Addresses(blocks)[k]].id == srcIds[k]
    ensures |pairs| == |blocks| && forall k :: 0 <= k < |blocks| ==>
      && pairs[k] == (srcIds[k], blocks[k].blockId)
      && InRange(dst.cfg, pairs[k].1) && DeviceOf(pairs[k].1, beginCpuBlockId) == dstDevice
    ensures CarriesOver(s, s0, dst.Abs(), pairs)
  {
    hide *;
    ResidesFacts(dst, blocks, tokens);
    OnDevice(dst, blocks, tokens);
    forall k | 0 <= k < |blocks| ensures DeviceOf(blocks[k].blockId, beginCpuBlockId) == dstDevice {
      ServesItsIds(dst.cfg, dstDevice, beginCpuBlockId, blocks[k].blockId);
    }
    var dstIds := IdsOf(blocks);
    pairs := Pairs(srcIds, dstIds);
    MappedIs(s, dst.Abs(), Addresses(blocks), pairs);
    CarriesAny(s, s0, dst.Abs(), Addresses(blocks), tokens, pairs);
  }

  /** From any memory that is right for `s`, carrying the pairs over onto that of `s0` makes one right for `t`. */
  ghost predicate CarriesOver(s: State, s0: State, t: State, pairs: seq<(BlockId, BlockId)>) {
    forall m :: Inv(s.(memory := m)) ==> Inv(t.(memory := Carried(m, s0.memory, pairs)))
  }

  lemma CarriesAny(s: State, s0: State, t: State, objs: seq<Obj>, tokens: seq<TokenId>, pairs: seq<(BlockId, BlockId)>)
    requires Tabled(s, objs, tokens) && s.cfg.blockSize == t.cfg.blockSize
    requires CollisionFree(t.cfg.mix) && Inv(t) && Tabled(t, objs, tokens) && Landed(s0, t, objs)
    requires Mapped(s, t, objs, pairs)
    ensures CarriesOver(s, s0, t, pairs)
  {
    hide Inv, Tabled, Landed, Mapped, Carried, CollisionFree;
    forall m | Inv(s.(memory := m)) ensures Inv(t.(memory := Carried(m, s0.memory, pairs))) {
      SwapCarries(s, m, s0, t, objs, tokens, pairs);
    }
  }

  lemma OnDevice(alloc: PrefixCacheBlockAllocator, blocks: seq<BlockObj>, tokens: seq<TokenId>)
    requires Resides(alloc, blocks, tokens)
    ensures Inv(alloc.Abs()) && CollisionFree(alloc.cfg.mix) && alloc.Abs().cfg == alloc.cfg
    ensures |Addresses(blocks)| == |blocks| && Tabled(alloc.Abs(), Addresses(blocks), tokens)
    ensures forall k :: 0 <= k < |blocks| ==>
      && Addresses(blocks)[k] in alloc.Abs().blocks
      && alloc.Abs().blocks[Addresses(blocks)[k]].extra == blocks[k].extra
      && alloc.Abs().blocks[Addresses(blocks)[k]].id == blocks[k].blockId
  {
    forall k | 0 <= k < |blocks|
      ensures blocks[k].address in alloc.Abs().blocks && alloc.Abs().blocks[blocks[k].address] == blocks[k].Value()
    {
      assert alloc.live[blocks[k].address] == blocks[k];
    }
  }

  lemma MappedIs(s: State, t: State, objs: seq<Obj>, pairs: seq<(BlockId, BlockId)>)
    requires |pairs| == |objs|
    requires forall k :: 0 <= k < |objs| ==>
      && objs[k] in s.blocks && objs[k] in t.blocks && s.blocks[objs[k]].extra == t.blocks[objs[k]].extra
      && pairs[k] == (s.blocks[objs[k]].id, t.blocks[objs[k]].id)
    ensures Mapped(s, t, objs, pairs)
  {
  }

  /** Objects whose addresses are unknown to an allocator are not among its own. */
  lemma NotAmong(alloc: PrefixCacheBlockAllocator, blocks: seq<BlockObj>)
    requires alloc.Valid() && forall k :: 0 <= k < |blocks| ==> blocks[k].address !in alloc.live
    ensures forall k :: 0 <= k < |blocks| ==> blocks[k] !in alloc.live.Values
  {
    forall k, a | 0 <= k < |blocks| && a in alloc.live ensures alloc.live[a] != blocks[k] {
      assert alloc.live[a].address == a;
    }
  }

  lemma LeftApart(alloc: PrefixCacheBlockAllocator, s0: State, live: map<Obj, BlockObj>, blocks: seq<BlockObj>)
    requires Leaving(alloc, s0, live, blocks, |blocks|)
    ensures forall k :: 0 <= k < |blocks| ==> blocks[k] !in alloc.live.Values
  {
    hide Kept, Available, PrefixCacheBlockAllocator.Valid;
    forall k | 0 <= k < |blocks| ensures blocks[k].address !in alloc.live {
      assert Addresses(blocks)[..|blocks|][k] == blocks[k].address;
    }
    NotAmong(alloc, blocks);
  }

  lemma ResidesNow(alloc: PrefixCacheBlockAllocator, s0: State, blocks: seq<BlockObj>, tokens: seq<TokenId>)
    requires Arrived(alloc, s0, blocks, tokens, |blocks|) && Sequential(blocks)
      && |tokens| <= |blocks| * alloc.cfg.blockSize
    ensures Resides(alloc, blocks, tokens) && Kept(s0, alloc.Abs(), [])
    ensures Landed(s0, alloc.Abs(), Addresses(blocks))
  {
    assert blocks[..|blocks|] == blocks;
    assert Front(tokens, alloc.cfg.blockSize, |blocks|) == tokens;
  }

  lemma GoneFrom(alloc: PrefixCacheBlockAllocator, s0: State, live: map<Obj, BlockObj>, blocks: seq<BlockObj>)
    requires Leaving(alloc, s0, live, blocks, |blocks|)
    ensures alloc.Valid() && forall k :: 0 <= k < |blocks| ==> blocks[k].address !in alloc.live
  {
    hide Kept, Available, PrefixCacheBlockAllocator.Valid;
    forall k | 0 <= k < |blocks| ensures blocks[k].address !in alloc.live {
      assert Addresses(blocks)[..|blocks|][k] == blocks[k].address;
    }
  }

  lemma CarriedTwice(s: State, c: State, away: State, left: State, t: State, out: seq<(BlockId, BlockId)>,
                     back: seq<(BlockId, BlockId)>)
    requires Inv(s) && CarriesOver(s, c, away, out) && CarriesOver(away, left, t, back) && left.memory == s.memory
    ensures Inv(t.(memory := Carried(Carried(s.memory, c.memory, out), s.memory, back)))
  {
    hide InvHeld, Carried;
    assert s.(memory := s.memory) == s;
    var m := Carried(s.memory, c.memory, out);
    assert Inv(away.(memory := m));
  }

  lemma LeftMemory(alloc: PrefixCacheBlockAllocator, s0: State, live: map<Obj, BlockObj>, blocks: seq<BlockObj>)
    requires Leaving(alloc, s0, live, blocks, |blocks|)
    ensures alloc.Abs().memory == s0.memory
  {
  }

  /** Out and back in: the blocks are on the NPU again, with the same tokens in the same order, and the
      second mapping starts from the ids the first one led to. */
  method SwapOutAndIn(npu: PrefixCacheBlockAllocator, cpu: PrefixCacheBlockAllocator, blocks: seq<BlockObj>,
                      beginCpuBlockId: BlockId, ghost tokens: seq<TokenId>)
    returns (out: Result<seq<(BlockId, BlockId)>>, back: Result<seq<(BlockId, BlockId)>>)
    requires npu != cpu && npu.evictor != cpu.evictor && npu.cfg.blockSize == cpu.cfg.blockSize
    requires Resides(npu, blocks, tokens) && cpu.Valid() && CollisionFree(cpu.cfg.mix) && CollisionFree(npu.cfg.mix)
    requires Serves(npu.cfg, NPU, beginCpuBlockId) && Serves(cpu.cfg, CPU, beginCpuBlockId)
    requires forall k :: 0 <= k < |blocks| ==> blocks[k].address !in cpu.live
    modifies npu, npu.evictor, cpu, cpu.evictor, blocks`before, blocks`blockId
    ensures out.Ok? && back.Ok? ==>
      && Resides(npu, blocks, tokens) && cpu.Valid() && |out.value| == |back.value| == |blocks|
      && forall k :: 0 <= k < |blocks| ==>
          && out.value[k].0 == old(blocks[k].blockId) && back.value[k].0 == out.value[k].1
          && back.value[k].1 == blocks[k].blockId && DeviceOf(blocks[k].blockId, beginCpuBlockId) == NPU
    ensures out.Ok? && back.Ok? ==>
      var away := Carried(old(npu.Abs()).memory, old(cpu.Abs()).memory, out.value);
      Inv(npu.Abs().(memory := Carried(away, old(npu.Abs()).memory, back.value)))
  {
    hide *;
    ghost var s, c := npu.Abs(), cpu.Abs();
    OnDevice(npu, blocks, tokens);
    back := Err(Misuse);
    out := Swap(npu, cpu, blocks, NPU, CPU, beginCpuBlockId, tokens);
    if out.Ok? {
      GoneFrom(npu, old(npu.Abs()), old(npu.live), blocks);
      LeftMemory(npu, old(npu.Abs()), old(npu.live), blocks);
      label between:
      back := Swap(cpu, npu, blocks, CPU, NPU, beginCpuBlockId, tokens);
      if back.Ok? {
        GoneFrom(cpu, old@between(cpu.Abs()), old@between(cpu.live), blocks);
        CarriedTwice(s, c, old@between(cpu.Abs()), old@between(npu.Abs()), npu.Abs(), out.value, back.value);
      }
    }
  }
}
