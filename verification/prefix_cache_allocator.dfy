/** The prefix-caching allocator and its block objects, updated in place;
    each method is proved against the transition of the same name in PrefixCacheSpec. */
module PrefixCacheAllocator {
  import opened Basics
  import opened PrefixChain
  import opened LruEvictor
  import opened PrefixCacheSpec
  import Spec = PrefixCacheSpec
  import opened PrefixCacheSteps
  import opened PrefixCacheOperations
  import opened PrefixCacheRuns

  /** A block object. `before` is the chain its prevBlock_ leads to, read when tokens were last put in. */
  class BlockObj {
    ghost const address: Obj  // what stands for the pointer in specifications
    const prev: BlockObj?
    var before: Chain
    var tokens: seq<TokenId>
    const extra: HashValue
    var blockId: BlockId

    constructor (ghost address: Obj, prev: BlockObj?, before: Chain, tokens: seq<TokenId>, extra: HashValue,
                 blockId: BlockId)
      ensures this.address == address && this.prev == prev
      ensures Value() == Block(before, tokens, extra, blockId)
    {
      this.address := address;
      this.prev := prev;
      this.before := before;
      this.tokens := tokens;
      this.extra := extra;
      this.blockId := blockId;
    }

    function Value(): Block
      reads this
    {
      Block(before, tokens, extra, blockId)
    }

    function PrefixHash(cfg: Config): HashValue
      reads this
    {
      HashOf(cfg, Value())
    }

    /** The chain this block stands for, as its successor reads it. */
    function Chain(): Chain
      reads this
    {
      Link(before, tokens, extra)
    }
  }

  function Behind(prev: BlockObj?): Chain
    reads prev
  {
    if prev == null then Root else prev.Chain()
  }

  ghost function Addresses(chain: seq<BlockObj>): seq<Obj> {
    seq(|chain|, k requires 0 <= k < |chain| => chain[k].address)
  }

  /** The objects at `addresses` form a chain of their own. */
  ghost predicate Copies(live: map<Obj, BlockObj>, copies: seq<BlockObj>, addresses: seq<Obj>) {
    && |copies| == |addresses|
    && (copies != [] ==> copies[0].prev == null)
    && (forall j, k :: 0 <= j < k < |copies| && k == j + 1 ==> copies[k].prev == copies[j])
    && (forall k :: 0 <= k < |copies| ==>
          copies[k].address == addresses[k] && addresses[k] in live && live[addresses[k]] == copies[k])
  }

  lemma NoCopies(live: map<Obj, BlockObj>, addresses: seq<Obj>)
    ensures Copies(live, [], addresses[..0])
  {
  }

  /** The next block of a chain to be forked. */
  lemma ForkNext(s: State, sources: seq<Obj>, copies: seq<Obj>, i: nat)
    requires i < |sources| == |copies|
    ensures Spec.ForkBlocks(s, sources[i..], copies[i..]) ==
      var t := Spec.ForkBlock(s, sources[i], copies[i]);
      if t.Err? then Err(t.error) else Spec.ForkBlocks(t.value, sources[i + 1..], copies[i + 1..])
  {
    assert sources[i..][1..] == sources[i + 1..] && copies[i..][1..] == copies[i + 1..];
  }

  lemma ForkDone(s: State)
    ensures Spec.ForkBlocks(s, [], []) == Ok(s)
  {
  }

  lemma CopiesPush(live: map<Obj, BlockObj>, copies: seq<BlockObj>, addresses: seq<Obj>, b: BlockObj)
    requires |copies| < |addresses| && Copies(live, copies, addresses[..|copies|])
    requires b.address == addresses[|copies|] && b.address !in live
    requires b.prev == if copies == [] then null else copies[|copies| - 1]
    ensures Copies(live[b.address := b], copies + [b], addresses[..|copies| + 1])
  {
  }

  /** Which ids are active has not changed. */
  ghost predicate SameActive(a: map<BlockId, BlockInfo>, b: map<BlockId, BlockInfo>) {
    a.Keys == b.Keys && forall id :: id in a ==> b[id].active == a[id].active
  }

  lemma SameActiveSelf(a: map<BlockId, BlockInfo>)
    ensures SameActive(a, a)
  {
  }

  lemma SameActiveThen(a: map<BlockId, BlockInfo>, b: map<BlockId, BlockInfo>, c: map<BlockId, BlockInfo>, id: BlockId)
    requires SameActive(a, b) && SameActive(b, c)
    ensures SameActive(a, c) && (id in a && a[id].active <==> id in b && b[id].active)
  {
  }

  lemma MarkedNone(s: State, ids: seq<BlockId>, now: TimeStamp)
    ensures Spec.MarkBlocksAsAccessed(s, ids[..0], now) == Ok(s)
  {
  }

  lemma MarkedPush(s: State, ids: seq<BlockId>, k: nat, now: TimeStamp, t: State)
    requires k < |ids| && Spec.MarkBlocksAsAccessed(s, ids[..k], now) == Ok(t)
    ensures Spec.MarkBlocksAsAccessed(s, ids[..k + 1], now) == Spec.MarkBlockAsAccessed(t, ids[k], now)
  {
    assert ids[..k + 1][..k] == ids[..k];
  }

  lemma ActiveUsed(s: State, id: BlockId)
    requires Inv(s) && id in s.info && s.info[id].active
    ensures id in s.refs && s.refs[id] > 0
  {
  }

  /** The id taken is held by the operation, and no object has changed. */
  lemma AllocatedHeld(s: State, pick: BlockId)
    requires Inv(s) && Spec.AllocateBlockId(s, pick).Ok?
    ensures
      var (id, t) := Spec.AllocateBlockId(s, pick).value;
      InvHeld(t, Some(id)) && t.cfg == s.cfg && t.blocks == s.blocks
  {
    hide InvHeld;
    AllocateBlockIdCorrect(s, pick);
  }

  /** All ids free, unused and inactive. */
  method FreshIds(cfg: Config) returns (free: seq<BlockId>, refs: map<BlockId, int>, info: map<BlockId, BlockInfo>)
    ensures free == Initial(cfg).free && refs == Initial(cfg).refs && info == Initial(cfg).info
  {
    free, refs, info := [], map[], map[];
    for k := 0 to cfg.num
      invariant free == IdsFrom(cfg.begin, cfg.num)[..k]
      invariant refs == map id | id in IdsFrom(cfg.begin, cfg.num)[..k] :: 0
      invariant info == map id | id in IdsFrom(cfg.begin, cfg.num)[..k] ::
        BlockInfo(false, false, DEFAULT_LAST_ACCESSED_TIME)
    {
      var id := cfg.begin + k;
      assert IdsFrom(cfg.begin, cfg.num)[..k + 1] == IdsFrom(cfg.begin, cfg.num)[..k] + [id];
      free := free + [id];
      refs := refs[id := 0];
      info := info[id := BlockInfo(false, false, DEFAULT_LAST_ACCESSED_TIME)];
    }
    assert IdsFrom(cfg.begin, cfg.num)[..cfg.num] == IdsFrom(cfg.begin, cfg.num);
  }

  class PrefixCacheBlockAllocator {
    const cfg: Config
    var free: seq<BlockId>
    var refs: map<BlockId, int>
    var cached: map<HashValue, BlockId>
    var touched: set<BlockId>
    const evictor: LRUEvictor
    var info: map<BlockId, BlockInfo>
    var cows: seq<(BlockId, BlockId)>
    ghost var live: map<Obj, BlockObj>       // the objects that hold an id
    ghost var memory: map<BlockId, Chain>    // what the device keeps

    /** The live objects are where their addresses say, and the evictor is in order. */
    ghost predicate Linked()
      reads this, evictor, live.Values
    {
      && (forall a :: a in live ==> live[a].address == a)
      && evictor.Valid()
    }

    ghost function Blocks(): map<Obj, Block>
      reads this`live, live.Values
    {
      map a | a in live :: live[a].Value()
    }

    ghost function Abs(): State
      reads this, evictor, live.Values
    {
      State(cfg, free, refs, cached, touched, evictor.candidates, info, cows, Blocks(), memory)
    }

    ghost predicate Valid()
      reads this, evictor, live.Values
    {
      Linked() && Inv(Abs())
    }

    ghost predicate Has(b: BlockObj)
      reads this`live
    {
      b.address in live && live[b.address] == b
    }

    constructor (cfg: Config)
      requires cfg.blockSize > 0
      ensures Valid() && Abs() == Initial(cfg) && fresh(evictor) && live == map[]
    {
      var ids, counts, infos := FreshIds(cfg);
      this.cfg := cfg;
      free, refs, cached, touched := ids, counts, map[], {};
      evictor := new LRUEvictor();
      info, cows, live, memory := infos, [], map[], map[];
      new;
      assert Abs().blocks == map[];
      InitialInv(cfg);
    }

    // ---------- the steps; each follows the transition of its name ----------

    method Increase(id: BlockId) returns (r: Result<int>)
      requires Linked()
      modifies this`refs
      ensures match r
        case Ok(count) => Spec.Increase(old(Abs()), id) == Ok(Abs()) && id in refs && count == refs[id]
        case Err(e) => Spec.Increase(old(Abs()), id) == Err(e)
    {
      if id !in refs || refs[id] < 0 {
        return Err(Internal);
      }
      refs := refs[id := refs[id] + 1];
      return Ok(refs[id]);
    }

    method Decrease(id: BlockId) returns (r: Result<int>)
      requires Linked()
      modifies this`refs
      ensures match r
        case Ok(count) => Spec.Decrease(old(Abs()), id) == Ok(Abs()) && id in refs && count == refs[id]
        case Err(e) => Spec.Decrease(old(Abs()), id) == Err(e)
    {
      if id !in refs || refs[id] <= 0 {
        return Err(Internal);
      }
      refs := refs[id := refs[id] - 1];
      return Ok(refs[id]);
    }

    method TrackBlockId(id: BlockId, computed: bool) returns (r: Result<()>)
      requires Linked()
      modifies this`info
      ensures match r
        case Ok(_) => Spec.Track(old(Abs()), id, computed) == Ok(Abs())
        case Err(e) => Spec.Track(old(Abs()), id, computed) == Err(e)
    {
      if id !in info || info[id].active {
        return Err(Internal);
      }
      info := info[id := BlockInfo(true, computed, DEFAULT_LAST_ACCESSED_TIME)];
      return Ok(());
    }

    method UntrackBlockId(id: BlockId) returns (r: Result<()>)
      requires Linked()
      modifies this`info
      ensures match r
        case Ok(_) => Spec.Untrack(old(Abs()), id) == Ok(Abs())
        case Err(e) => Spec.Untrack(old(Abs()), id) == Err(e)
    {
      if id !in info || !info[id].active {
        return Err(Internal);
      }
      info := info[id := BlockInfo(false, false, DEFAULT_LAST_ACCESSED_TIME)];
      return Ok(());
    }

    /** Takes over the id that the evictor has given up, and drops its cache entry. */
    method TakeEvictedId(key: HashValue, id: BlockId) returns (r: Result<()>)
      requires Linked()
      modifies this`refs, this`info, this`cached
      ensures match r
        case Ok(_) => Spec.TakeEvictedId(old(Abs()), key, id) == Ok(Abs())
        case Err(e) => Spec.TakeEvictedId(old(Abs()), key, id) == Err(e)
    {
      if key !in cached || cached[key] != id || !InRange(cfg, id) {
        return Err(Internal);
      }
      cached := cached - {key};
      var c := Increase(id);
      if c.Err? {
        return Err(c.error);
      }
      r := TrackBlockId(id, false);
    }

    method MayBeAllocateEvictedBlockId() returns (r: Result<BlockId>, ghost pick: BlockId)
      requires Linked()
      modifies this`refs, this`info, this`cached, evictor
      ensures Linked()
      ensures match r
        case Ok(id) => Spec.AllocateEvictedBlockId(old(Abs()), pick) == Ok((id, Abs()))
        case Err(e) => Spec.AllocateEvictedBlockId(old(Abs()), pick) == Err(e)
      ensures r.Ok? ==> EvictsNext(old(evictor.candidates), old(evictor.queue), r.value)
    {
      hide LRUEvictor.Valid, GaveUp, EvictsNext, Spec.TakeEvictedId;
      ghost var candidates, queue := evictor.candidates, evictor.queue;
      var e, entry := evictor.Evict();
      pick := entry.blockId;
      if candidates != map[] { GaveUpNext(candidates, queue, entry, evictor.queue); }
      if e.Err? {
        return Err(e.error), pick;
      }
      var (key, id) := e.value;
      var t := TakeEvictedId(key, id);
      r := if t.Ok? then Ok(id) else Err(t.error);
    }

    method AllocateBlockId() returns (r: Result<BlockId>, ghost pick: BlockId)
      requires Linked()
      modifies this`free, this`refs, this`info, this`cached, evictor
      ensures Linked()
      ensures match r
        case Ok(id) => Spec.AllocateBlockId(old(Abs()), pick) == Ok((id, Abs()))
        case Err(e) => Spec.AllocateBlockId(old(Abs()), pick) == Err(e)
      ensures r.Ok? ==>
        if old(free) != [] then r.value == old(free)[0]
        else EvictsNext(old(evictor.candidates), old(evictor.queue), r.value)
    {
      pick := 0;
      if free != [] {
        var id := free[0];
        free := free[1..];
        var c := Increase(id);
        if c.Err? {
          return Err(c.error), pick;
        }
        var t := TrackBlockId(id, false);
        if t.Err? {
          return Err(t.error), pick;
        }
        return Ok(id), pick;
      }
      r, pick := MayBeAllocateEvictedBlockId();
    }

    method ReleaseId(id: BlockId) returns (r: Result<()>)
      requires Linked()
      modifies this`refs, this`info, this`free
      ensures match r
        case Ok(_) => Spec.ReleaseId(old(Abs()), id) == Ok(Abs())
        case Err(e) => Spec.ReleaseId(old(Abs()), id) == Err(e)
    {
      var c := Decrease(id);
      if c.Err? {
        return Err(c.error);
      }
      if c.value == 0 {
        var t := UntrackBlockId(id);
        if t.Err? {
          return Err(t.error);
        }
        free := free + [id];
      }
      return Ok(());
    }

    method IncrRefCountCacheBlock(id: BlockId) returns (r: Result<()>)
      requires Linked()
      modifies this`refs, this`info, evictor
      ensures Linked()
      ensures match r
        case Ok(_) => Spec.IncrRefCountCacheBlock(old(Abs()), id) == Ok(Abs())
        case Err(e) => Spec.IncrRefCountCacheBlock(old(Abs()), id) == Err(e)
    {
      var c := Increase(id);
      if c.Err? {
        return Err(c.error);
      }
      if c.value == 1 {
        if evictor.ContainsBlock(id) {
          evictor.Remove(id);
        } else {
          assert evictor.candidates - {id} == evictor.candidates;
        }
        r := TrackBlockId(id, true);
      } else {
        r := Ok(());
      }
    }

    method DecrRefCountCacheBlock(b: BlockObj) returns (r: Result<()>)
      requires Linked()
      modifies this`refs, this`info, evictor
      ensures Linked()
      ensures match r
        case Ok(_) => Spec.DecrRefCountCacheBlock(old(Abs()), b.Value()) == Ok(Abs())
        case Err(e) => Spec.DecrRefCountCacheBlock(old(Abs()), b.Value()) == Err(e)
    {
      var id := b.blockId;
      var c := Decrease(id);
      if c.Err? {
        return Err(c.error);
      }
      if c.value == 0 {
        var h := b.PrefixHash(cfg);
        if h !in cached || cached[h] != id || id !in info {
          return Err(Internal);
        }
        evictor.Add(id, h, TotalTokens(b.Chain()), info[id].lastAccessed);
        r := UntrackBlockId(id);
      } else {
        r := Ok(());
      }
    }

    /** An object lives at its own address only. */
    lemma OneAddress(b: BlockObj)
      requires Linked()
      ensures b !in (live - {b.address}).Values
      ensures forall a :: a in live && a != b.address ==> live[a] != b
    {
      forall a | a in live && a != b.address ensures live[a] != b {
        assert live[a].address == a;
      }
    }

    method FreeBlockId(b: BlockObj) returns (r: Result<()>)
      requires Linked() && Has(b)
      modifies this`refs, this`info, this`free, this`live, evictor, b`blockId
      ensures Linked() && live == old(live) - {b.address}
      ensures match r
        case Ok(_) => Spec.FreeBlockId(old(Abs()), b.address) == Ok(Abs())
        case Err(e) => Spec.FreeBlockId(old(Abs()), b.address) == Err(e)
    {
      hide LRUEvictor.Valid;
      OneAddress(b);
      live := live - {b.address};
      assert Blocks() == old(Blocks()) - {b.address};
      if b.PrefixHash(cfg) != INVALID_HASH_VALUE {
        r := DecrRefCountCacheBlock(b);
      } else {
        r := ReleaseId(b.blockId);
      }
      b.blockId := INVALID_BLOCKID;
    }

    /** Gives the object an id (again). */
    method SetBlockId(b: BlockObj, id: BlockId)
      requires Linked() && (b.address in live ==> live[b.address] == b)
      modifies this`live, b`blockId
      ensures Linked() && live == old(live)[b.address := b] && b.Value() == old(b.Value()).(id := id)
      ensures Abs() == old(Abs()).(blocks := old(Blocks())[b.address := b.Value()])
    {
      hide LRUEvictor.Valid;
      OneAddress(b);
      b.blockId := id;
      live := live[b.address := b];
      forall a | a in live && a != b.address ensures live[a].Value() == old(live[a].Value()) {}
      assert Blocks() == old(Blocks())[b.address := b.Value()];
    }

    method CowBlockIfNotAppendable(b: BlockObj) returns (r: Result<()>, ghost pick: BlockId)
      requires Linked() && Has(b)
      modifies this, evictor, b`blockId
      ensures Linked()
      ensures r.Ok? ==> live == old(live)
      ensures match r
        case Ok(_) => Spec.CowBlockIfNotAppendable(old(Abs()), b.address, pick) == Ok(Abs())
        case Err(e) => Spec.CowBlockIfNotAppendable(old(Abs()), b.address, pick) == Err(e)
    {
      hide Spec.FreeBlockId; hide Spec.AllocateBlockId;
      pick := 0;
      var src := b.blockId;
      assert Blocks()[b.address] == b.Value();
      if src !in refs {
        return Err(Internal), pick;
      }
      if refs[src] <= 1 {
        return Ok(()), pick;
      }
      r := FreeBlockId(b);
      if r.Ok? {
        r, pick := CopyToFreshId(b, src);
      }
    }

    /** The second half of copy-on-write: a fresh id, and the pair on record for the device. */
    method CopyToFreshId(b: BlockObj, src: BlockId) returns (r: Result<()>, ghost pick: BlockId)
      requires Linked() && b.address !in live
      modifies this, evictor, b`blockId
      ensures Linked()
      ensures r.Ok? ==> live == old(live)[b.address := b] && b.Value() == old(b.Value()).(id := b.blockId)
      ensures match Spec.AllocateBlockId(old(Abs()), pick)
        case Ok((id, s)) => r.Ok? && b.blockId == id
          && Abs() == Recorded(s, (src, id)).(blocks := s.blocks[b.address := b.Value()])
        case Err(e) => r == Err(e)
    {
      hide Spec.AllocateBlockId; hide LRUEvictor.Valid; hide EvictsNext;
      var a;
      a, pick := AllocateBlockId();
      if a.Err? {
        return Err(a.error), pick;
      }
      cows := cows + [(src, a.value)];
      memory := CarriedOut(memory, (src, a.value));
      SetBlockId(b, a.value);
      return Ok(()), pick;
    }

    method PromoteToImmutableBlock(b: BlockObj) returns (r: Result<()>)
      requires Linked() && Has(b)
      modifies this, evictor, b`blockId
      ensures Linked() && live == old(live) && memory == old(memory)
      ensures match r
        case Ok(_) => Spec.PromoteToImmutableBlock(old(Abs()), b.address) == Ok(Abs())
        case Err(e) => Spec.PromoteToImmutableBlock(old(Abs()), b.address) == Err(e)
    {
      assert Blocks()[b.address] == b.Value();
      var h := b.PrefixHash(cfg);
      if h !in cached {
        cached := cached[h := b.blockId];
        touched := touched + {b.blockId};
        return Ok(());
      }
      r := ReleaseId(b.blockId);
      if r.Err? {
        return r;
      }
      var reuse := cached[h];
      SetBlockId(b, reuse);
      r := IncrRefCountCacheBlock(reuse);
    }

    /** Promotion of a block that became shareable; then the device computes its tokens from slot `from` on. */
    method Settle(b: BlockObj, ghost from: nat) returns (r: Result<()>)
      requires Linked() && Has(b)
      modifies this, evictor, b`blockId
      ensures Linked() && live == old(live)
      ensures match r
        case Ok(_) => Spec.Settle(old(Abs()), b.address, from) == Ok(Abs())
        case Err(e) => Spec.Settle(old(Abs()), b.address, from) == Err(e)
    {
      assert Blocks()[b.address] == b.Value();
      r := Ok(());
      if b.PrefixHash(cfg) != INVALID_HASH_VALUE {
        r := PromoteToImmutableBlock(b);
      }
      if r.Ok? {
        assert Blocks()[b.address] == b.Value();
        memory := WriteBack(Abs(), b.address, from).memory;
      }
    }

    /** The object's own update: its tokens, and its prefix as prevBlock_ now shows it. */
    method SetTokens(b: BlockObj, tokens: seq<TokenId>)
      requires Linked() && Has(b)
      modifies b`before, b`tokens
      ensures Linked() && Has(b) && live == old(live)
      ensures b.Value() == old(b.Value().(before := Behind(b.prev), tokens := tokens))
      ensures Abs() == old(Abs()).(blocks := old(Blocks())[b.address := b.Value()])
    {
      OneAddress(b);
      b.before := Behind(b.prev);
      b.tokens := tokens;
      forall a | a in live && a != b.address ensures live[a].Value() == old(live[a].Value()) {}
      assert Blocks() == old(Blocks())[b.address := b.Value()];
    }

    method CowAndSettle(b: BlockObj, ghost from: nat) returns (r: Result<()>, ghost pick: BlockId)
      requires Linked() && Has(b)
      modifies this, evictor, b`blockId
      ensures Linked() && (r.Ok? ==> live == old(live))
      ensures match r
        case Ok(_) => Spec.CowAndSettle(old(Abs()), b.address, from, pick) == Ok(Abs())
        case Err(e) => Spec.CowAndSettle(old(Abs()), b.address, from, pick) == Err(e)
    {
      r, pick := CowBlockIfNotAppendable(b);
      if r.Ok? {
        assert b.address in Blocks();
        r := Settle(b, from);
      }
    }

    method AppendToBlock(b: BlockObj, ts: seq<TokenId>) returns (r: Result<()>, ghost pick: BlockId)
      requires Linked() && Has(b)
      modifies this, evictor, b
      ensures Linked() && (r.Ok? ==> live == old(live))
      ensures match r
        case Ok(_) => Spec.AppendTokenIds(old(Abs()), b.address, old(Behind(b.prev)), ts, pick) == Ok(Abs())
        case Err(e) => Spec.AppendTokenIds(old(Abs()), b.address, old(Behind(b.prev)), ts, pick) == Err(e)
    {
      assert Blocks()[b.address] == b.Value();
      if HashOf(cfg, b.Value().(before := Behind(b.prev))) != INVALID_HASH_VALUE || |b.tokens| + |ts| > cfg.blockSize {
        return Err(Misuse), 0;
      }
      ghost var from := |Known(b.tokens)|;
      SetTokens(b, b.tokens + ts);
      r, pick := CowAndSettle(b, from);
    }

    // ---------- the interface ----------

    /** Only a shared block without a spare id for its copy makes appending fail. */
    method AppendTokenIds(b: BlockObj, ts: seq<TokenId>) returns (r: Result<()>, ghost pick: BlockId)
      requires CollisionFree(cfg.mix) && Valid() && Has(b)
      requires MayAppend(Abs(), b.address, Behind(b.prev), ts)
      modifies this, evictor, b
      ensures r.Ok? ==> Valid() && live == old(live)
      ensures b.address in old(Abs()).blocks && old(b.blockId in refs)
      ensures AppendOutcome(old(Abs()), b.address, old(Appended(b.Value(), Behind(b.prev), ts)),
                            if r.Ok? then Ok(Abs()) else Err(r.error))
      ensures r.Ok? ==> Spec.AppendTokenIds(old(Abs()), b.address, old(Behind(b.prev)), ts, pick) == Ok(Abs())
    {
      ghost var s := Abs();
      ghost var before := Behind(b.prev);
      assert s.blocks[b.address] == b.Value();
      r, pick := AppendToBlock(b, ts);
      AppendTokenIdsCorrect(s, b.address, before, ts, pick);
    }

    method ReplaceInBlock(b: BlockObj, i: nat, token: TokenId) returns (r: Result<()>)
      requires Linked() && Has(b)
      modifies this, evictor, b
      ensures Linked() && live == old(live)
      ensures match r
        case Ok(_) => Spec.ReplaceToken(old(Abs()), b.address, old(Behind(b.prev)), i, token) == Ok(Abs())
        case Err(e) => Spec.ReplaceToken(old(Abs()), b.address, old(Behind(b.prev)), i, token) == Err(e)
    {
      assert Blocks()[b.address] == b.Value();
      if i >= |b.tokens| {
        return Err(Misuse);
      }
      ghost var from := |Known(b.tokens)|;
      SetTokens(b, b.tokens[i := token]);
      r := Settle(b, from);
    }

    method ReplaceToken(b: BlockObj, i: nat, token: TokenId) returns (r: Result<()>)
      requires CollisionFree(cfg.mix) && Valid() && Has(b)
      requires MayReplace(Abs(), b.address, Behind(b.prev), i, token)
      modifies this, evictor, b
      ensures Valid() && live == old(live)
      ensures r.Ok? && Spec.ReplaceToken(old(Abs()), b.address, old(Behind(b.prev)), i, token) == Ok(Abs())
    {
      ReplaceTokenCorrect(Abs(), b.address, Behind(b.prev), i, token);
      r := ReplaceInBlock(b, i, token);
    }

    /** Registers a new, still empty object under the id the operation holds. */
    method Register(prev: BlockObj?, before: Chain, tokens: seq<TokenId>, extra: HashValue, ghost address: Obj,
                    id: BlockId)
      returns (b: BlockObj)
      requires Linked() && address !in live
      modifies this`live
      ensures Linked() && fresh(b) && live == old(live)[address := b] && b.address == address && b.prev == prev
      ensures b.Value() == Block(before, tokens, extra, id)
      ensures Abs() == old(Abs()).(blocks := old(Blocks())[address := Block(before, tokens, extra, id)])
    {
      b := new BlockObj(address, prev, before, tokens, extra, id);
      SetBlockId(b, id);
    }

    method NewMutableBlock(ts: seq<TokenId>, prev: BlockObj?, extra: HashValue, ghost address: Obj)
      returns (r: Result<BlockObj>, ghost pick: BlockId)
      requires CollisionFree(cfg.mix) && Valid() && MayPlace(Abs(), address, Behind(prev), ts, extra)
      modifies this, evictor
      ensures r.Ok? ==> Linked() && fresh(r.value) && live == old(live)[address := r.value]
      ensures r.Ok? ==> r.value.prev == prev && r.value.extra == extra
      ensures match r
        case Ok(_) => Spec.AllocateMutableBlock(old(Abs()), address, old(Behind(prev)), ts, extra, pick) == Ok(Abs())
        case Err(e) => Spec.AllocateMutableBlock(old(Abs()), address, old(Behind(prev)), ts, extra, pick) == Err(e)
    {
      hide Inv;
      ghost var s := Abs();
      ghost var before := Behind(prev);
      assert address !in live by { assert Blocks().Keys == live.Keys; }
      var id;
      id, pick := AllocateBlockId();
      if id.Err? {
        return Err(id.error), pick;
      }
      AllocatedHeld(s, pick);
      ghost var t := Abs();
      var b := Register(prev, Behind(prev), [], extra, address, id.value);
      assert Behind(b.prev) == before && b.extra == extra && b.blockId == id.value;
      r := FillFirst(b, ts, t, pick);
    }

    /** `address` is where the pool puts the object. Only exhaustion makes it fail. */
    method AllocateMutableBlock(ts: seq<TokenId>, prev: BlockObj?, extra: HashValue, ghost address: Obj)
      returns (r: Result<BlockObj>, ghost pick: BlockId)
      requires CollisionFree(cfg.mix) && Valid() && MayPlace(Abs(), address, Behind(prev), ts, extra)
      modifies this, evictor
      ensures r.Ok? ==> Valid() && fresh(r.value) && live == old(live)[address := r.value]
      ensures r.Ok? ==> r.value.prev == prev && r.value.extra == extra
      ensures PlaceOutcome(old(Abs()), address, Block(old(Behind(prev)), ts, extra, 0), true,
                           if r.Ok? then Ok(Abs()) else Err(r.error))
      ensures r.Ok? ==> Spec.AllocateMutableBlock(old(Abs()), address, old(Behind(prev)), ts, extra, pick) == Ok(Abs())
    {
      ghost var s := Abs();
      ghost var before := Behind(prev);
      r, pick := NewMutableBlock(ts, prev, extra, address);
      AllocateMutableBlockCorrect(s, address, before, ts, extra, pick);
    }

    /** The append that ends AllocateMutableBlock; `t` is the state before `b` was registered. */
    method FillFirst(b: BlockObj, ts: seq<TokenId>, ghost t: State, ghost pick: BlockId) returns (r: Result<BlockObj>)
      requires Linked() && Has(b) && t.cfg == cfg
      requires Abs() == t.(blocks := t.blocks[b.address := Block(Behind(b.prev), [], b.extra, b.blockId)])
      requires CollisionFree(cfg.mix) && Loose(t, b.address, Block(Behind(b.prev), ts, b.extra, b.blockId))
      modifies this, evictor, b
      ensures r == Ok(b) && Linked() && live == old(live)
      ensures Spec.AppendTokenIds(old(Abs()), b.address, old(Behind(b.prev)), ts, pick) == Ok(Abs())
    {
      ghost var full := Block(Behind(b.prev), ts, b.extra, b.blockId);
      var a, p := AppendToBlock(b, ts);
      FirstAppend(t, b.address, full, p);
      FirstAppend(t, b.address, full, pick);
      SettleCorrect(t, b.address, full, 0);
      return Ok(b);
    }

    method ShareCached(ts: seq<TokenId>, prev: BlockObj?, extra: HashValue, ghost address: Obj, id: BlockId)
      returns (r: Result<BlockObj>)
      requires Linked() && address !in live
      modifies this, evictor
      ensures Linked()
      ensures r.Ok? ==> fresh(r.value) && live == old(live)[address := r.value]
      ensures r.Ok? ==> r.value.prev == prev && r.value.extra == extra
      ensures
        var spec := Spec.IncrRefCountCacheBlock(
          old(Abs()).(blocks := old(Blocks())[address := Block(old(Behind(prev)), ts, extra, id)]), id);
        match r case Ok(_) => spec == Ok(Abs()) case Err(e) => spec == Err(e)
    {
      var b := Register(prev, Behind(prev), ts, extra, address, id);
      var i := IncrRefCountCacheBlock(id);
      r := if i.Ok? then Ok(b) else Err(i.error);
    }

    /** A hit shares the cached id and cannot fail; a miss allocates. */
    method AllocateImmutableBlock(ts: seq<TokenId>, prev: BlockObj?, extra: HashValue, ghost address: Obj)
      returns (r: Result<BlockObj>, ghost pick: BlockId)
      requires CollisionFree(cfg.mix) && Valid() && MayPlace(Abs(), address, Behind(prev), ts, extra)
      modifies this, evictor
      ensures r.Ok? ==> Valid() && fresh(r.value) && live == old(live)[address := r.value]
      ensures r.Ok? ==> r.value.prev == prev && r.value.extra == extra
      ensures
        var b := Block(old(Behind(prev)), ts, extra, 0);
        PlaceOutcome(old(Abs()), address, b, HashOf(cfg, b) !in old(cached), if r.Ok? then Ok(Abs()) else Err(r.error))
      ensures r.Ok? ==>
        Spec.AllocateImmutableBlock(old(Abs()), address, old(Behind(prev)), ts, extra, pick) == Ok(Abs())
    {
      pick := 0;
      var h := PrefixHash(cfg.mix, cfg.blockSize, Link(Behind(prev), ts, extra));
      if h in cached {
        AllocateImmutableBlockCorrect(Abs(), address, Behind(prev), ts, extra, pick);
        assert Blocks().Keys == live.Keys;
        r := ShareCached(ts, prev, extra, address, cached[h]);
      } else {
        r, pick := AllocateMutableBlock(ts, prev, extra, address);
      }
    }

    /** Free without keeping the object. */
    method Free(b: BlockObj) returns (r: Result<()>)
      requires Valid() && Has(b)
      modifies this, evictor, b`blockId
      ensures Valid() && live == old(live) - {b.address}
      ensures r.Ok? && Spec.Free(old(Abs()), b.address) == Ok(Abs())
    {
      assert b.address in Blocks();
      FreeCorrect(Abs(), b.address);
      r := FreeBlockId(b);
    }

    /** `b` takes over the id of `placeholder`, which was allocated at its address for its content. */
    method Adopt(b: BlockObj, placeholder: BlockObj)
      requires Linked() && Has(placeholder) && placeholder.address == b.address
      requires placeholder.tokens == b.tokens && placeholder.extra == b.extra
      modifies this`live, b`before, b`blockId
      ensures Linked() && live == old(live)[b.address := b] && Abs() == old(Abs())
      ensures b.blockId == old(placeholder.blockId) && b.before == old(placeholder.before)
    {
      hide LRUEvictor.Valid;
      OneAddress(placeholder);
      assert b == placeholder || forall a :: a in live ==> live[a] != b by {
        forall a | a in live && live[a] == b ensures b == placeholder { assert live[a].address == a; }
      }
      b.before, b.blockId := placeholder.before, placeholder.blockId;
      live := live[b.address := b];
      forall a | a in live ensures live[a].Value() == old(Blocks())[a] {}
      assert Blocks() == old(Blocks());
    }

    /** The copy of one block of a forked chain. */
    method ForkBlock(b: BlockObj, prev: BlockObj?, ghost address: Obj) returns (r: Result<BlockObj>)
      requires Linked() && Has(b) && address !in live
      modifies this
      ensures Linked()
      ensures r.Ok? ==>
        fresh(r.value) && live == old(live)[address := r.value] && r.value.address == address && r.value.prev == prev
      ensures match r
        case Ok(_) => Spec.ForkBlock(old(Abs()), b.address, address) == Ok(Abs())
        case Err(e) => Spec.ForkBlock(old(Abs()), b.address, address) == Err(e)
    {
      assert Blocks()[b.address] == b.Value();
      var c := Increase(b.blockId);
      if c.Err? {
        return Err(c.error);
      }
      if c.value < 2 {
        return Err(Internal);
      }
      var copy := Register(prev, b.before, b.tokens, b.extra, address, b.blockId);
      return Ok(copy);
    }

    /** `chain` is what walking back from `last` over prevBlock_ yields, oldest first. */
    ghost predicate ChainTo(chain: seq<BlockObj>, last: BlockObj)
      reads this`live, chain
    {
      && chain != [] && chain[|chain| - 1] == last && chain[0].prev == null
      && (forall j, k :: 0 <= j < k < |chain| && k == j + 1 ==> chain[k].prev == chain[j])
      && (forall k :: 0 <= k < |chain| ==> chain[k].address in live && live[chain[k].address] == chain[k])
    }

    method CollectChain(last: BlockObj, ghost chain: seq<BlockObj>) returns (sources: seq<BlockObj>)
      requires ChainTo(chain, last)
      ensures sources == chain
    {
      sources := [];
      var visit: BlockObj? := last;
      ghost var k := |chain|;
      while visit != null
        invariant 0 <= k <= |chain| && sources == chain[k..]
        invariant visit == if k == 0 then null else chain[k - 1]
        decreases k
      {
        sources := [visit] + sources;
        visit := visit.prev;
        k := k - 1;
      }
    }

    method ForkAll(sources: seq<BlockObj>, ghost addresses: seq<Obj>) returns (r: Result<seq<BlockObj>>)
      requires Linked() && |addresses| == |sources|
      requires forall k :: 0 <= k < |sources| ==> sources[k].address in live && live[sources[k].address] == sources[k]
      requires forall k :: 0 <= k < |addresses| ==> addresses[k] !in live
      requires forall j, k :: 0 <= j < k < |addresses| ==> addresses[j] != addresses[k]
      modifies this
      ensures Linked()
      ensures match r
        case Ok(copies) => Spec.ForkBlocks(old(Abs()), Addresses(sources), addresses) == Ok(Abs())
        case Err(e) => Spec.ForkBlocks(old(Abs()), Addresses(sources), addresses) == Err(e)
      ensures r.Ok? ==> Copies(live, r.value, addresses)
      ensures r.Ok? ==> forall a :: a in old(live) ==> a in live && live[a] == old(live)[a]
      ensures r.Ok? ==> forall k :: 0 <= k < |r.value| ==> fresh(r.value[k])
    {
      hide LRUEvictor.Valid, Copies, Spec.ForkBlocks, Spec.ForkBlock;
      var copies: seq<BlockObj> := [];
      ghost var sa := Addresses(sources);
      ghost var spec := Spec.ForkBlocks(Abs(), sa, addresses);
      NoCopies(live, addresses);
      for i := 0 to |sources|
        invariant Linked() && |copies| == i
        invariant forall a :: a in old(live) ==> a in live && live[a] == old(live)[a]
        invariant forall k :: i <= k < |addresses| ==> addresses[k] !in live
        invariant Spec.ForkBlocks(Abs(), sa[i..], addresses[i..]) == spec
        invariant Copies(live, copies, addresses[..i])
        invariant forall k :: 0 <= k < |copies| ==> fresh(copies[k])
      {
        ForkNext(Abs(), sa, addresses, i);
        ghost var before := live;
        var c := ForkBlock(sources[i], if i == 0 then null else copies[i - 1], addresses[i]);
        if c.Err? {
          return Err(c.error);
        }
        CopiesPush(before, copies, addresses, c.value);
        copies := copies + [c.value];
      }
      assert addresses[..|sources|] == addresses;
      ForkDone(Abs());
      assert sa[|sources|..] == [] && addresses[|sources|..] == [];
      return Ok(copies);
    }

    /** Forks a whole chain: every copy shares its source's id, so no id is needed and nothing can fail. */
    method Fork(last: BlockObj, ghost addresses: seq<Obj>, ghost chain: seq<BlockObj>)
      returns (r: Result<seq<BlockObj>>)
      requires Valid() && ChainTo(chain, last) && |addresses| == |chain|
      requires forall k :: 0 <= k < |addresses| ==> addresses[k] !in live
      requires forall j, k :: 0 <= j < k < |addresses| ==> addresses[j] != addresses[k]
      modifies this
      ensures Valid() && r.Ok? && Copies(live, r.value, addresses)
      ensures Spec.ForkBlocks(old(Abs()), Addresses(chain), addresses) == Ok(Abs())
      ensures forall a :: a in old(live) ==> a in live && live[a] == old(live)[a]
      ensures forall k :: 0 <= k < |r.value| ==> fresh(r.value[k])
    {
      hide Inv; hide Spec.ForkBlocks;
      var sources := CollectChain(last, chain);
      assert Blocks().Keys == live.Keys;
      ForkBlocksCorrect(Abs(), Addresses(chain), addresses);
      r := ForkAll(sources, addresses);
    }

    method SetComputed(ids: set<BlockId>)
      requires ids <= info.Keys
      modifies this`info
      ensures info == ComputedInfo(old(info), ids)
    {
      var rest := ids;
      while rest != {}
        invariant rest <= ids && info.Keys == old(info.Keys)
        invariant forall id :: id in info ==>
          info[id] == if id in ids && id !in rest then old(info)[id].(computed := true) else old(info)[id]
        decreases rest
      {
        ghost var some := AnyOf(rest);
        var id :| id in rest;
        rest := rest - {id};
        info := info[id := info[id].(computed := true)];
      }
      forall id | id in info ensures info[id] == ComputedInfo(old(info), ids)[id] {}
    }

    method MarkBlocksAsComputed()
      requires Valid()
      modifies this`info, this`touched
      ensures Valid() && Abs() == Spec.MarkBlocksAsComputed(old(Abs()))
    {
      assert touched <= info.Keys;
      hide Inv;
      MarkBlocksAsComputedCorrect(Abs());
      SetComputed(touched);
      touched := {};
    }

    /** Hands the recorded copies to the device. */
    method ClearCopyOnWrites() returns (pairs: seq<(BlockId, BlockId)>)
      requires Valid()
      modifies this`cows
      ensures Valid() && pairs == old(cows) && Abs() == Spec.ClearCopyOnWrites(old(Abs()))
    {
      ClearCopyOnWritesCorrect(Abs());
      hide Inv;
      pairs := cows;
      cows := [];
    }

    /** Stamps one block; an id that is not in use is refused. */
    method MarkBlockAsAccessed(id: BlockId, now: TimeStamp) returns (r: Result<()>)
      requires Valid()
      modifies this`info
      ensures Valid() && SameActive(old(info), info)
      ensures r == if id in old(info) && old(info)[id].active then Ok(()) else Err(Internal)
      ensures r.Ok? ==> Spec.MarkBlockAsAccessed(old(Abs()), id, now) == Ok(Abs())
    {
      hide Inv, LRUEvictor.Valid;
      if id !in info || !info[id].active {
        return Err(Internal);
      }
      ActiveUsed(Abs(), id);
      MarkBlockAsAccessedCorrect(Abs(), id, now);
      info := info[id := info[id].(lastAccessed := now)];
      return Ok(());
    }

    /** Stamps blocks, up to the first that is not in use. */
    method MarkBlocksAsAccessed(ids: seq<BlockId>, now: TimeStamp) returns (r: Result<()>)
      requires Valid()
      modifies this`info
      ensures Valid()
      ensures r.Ok? <==> forall k :: 0 <= k < |ids| ==> ids[k] in old(info) && old(info)[ids[k]].active
      ensures r.Ok? ==> Spec.MarkBlocksAsAccessed(old(Abs()), ids, now) == Ok(Abs())
    {
      hide *;
      MarkedNone(Abs(), ids, now);
      SameActiveSelf(info);
      for k := 0 to |ids|
        invariant Valid() && SameActive(old(info), info)
        invariant Spec.MarkBlocksAsAccessed(old(Abs()), ids[..k], now) == Ok(Abs())
        invariant forall j :: 0 <= j < k ==> ids[j] in old(info) && old(info)[ids[j]].active
      {
        ghost var s, before := Abs(), info;
        r := MarkBlockAsAccessed(ids[k], now);
        SameActiveThen(old(info), before, info, ids[k]);
        if r.Err? {
          return;
        }
        MarkedPush(old(Abs()), ids, k, now, s);
      }
      assert ids[..|ids|] == ids;
      return Ok(());
    }

    // ---------- queries ----------

    function GetNumFreeBlock(): nat
      reads this, evictor
    {
      |free| + |evictor.candidates|
    }

    predicate IsBlockComputed(id: BlockId)
      reads this, evictor
    {
      if id in info && info[id].active then info[id].computed else evictor.ContainsBlock(id)
    }

    predicate IsBlockCached(h: HashValue)
      reads this, evictor
    {
      h in cached && IsBlockComputed(cached[h])
    }

    lemma CachedIsFindable(h: HashValue)
      ensures IsBlockCached(h) <==> Findable(Abs(), h)
      ensures IsBlockCached(h) ==> h in cached && Abs().cached == cached
    {
    }

    /** The ids of the longest prefix of hashes that are cached and computed. */
    method FindCachedBlocksPrefix(hashes: seq<HashValue>) returns (ids: seq<BlockId>)
      ensures ids == FoundIds(Abs(), hashes)
    {
      hide *;
      ids := [];
      ghost var found := FoundIds(Abs(), hashes);
      for k := 0 to |hashes|
        invariant |ids| == k <= |found| && forall j :: 0 <= j < k ==> ids[j] == found[j]
      {
        CachedIsFindable(hashes[k]);
        if !IsBlockCached(hashes[k]) {
          return;
        }
        ids := ids + [cached[hashes[k]]];
      }
    }
  }
}
