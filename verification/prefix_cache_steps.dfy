/** The elementary moves of the allocator, each keeping the invariant. */
module PrefixCacheSteps {
  import opened Basics
  import opened PrefixChain
  import opened LruEvictor
  import opened PrefixCacheSpec

  // ---------- what survives a step ----------

  function Own(held: Option<BlockId>, id: BlockId): int {
    if held == Some(id) then 1 else 0
  }

  lemma HoldersGain(blocks: map<Obj, Block>, o: Obj, b: Block, id: BlockId)
    requires o !in blocks
    ensures |Holders(blocks[o := b], id)| == |Holders(blocks, id)| + (if b.id == id then 1 else 0)
  {
    assert Holders(blocks[o := b], id) == Holders(blocks, id) + (if b.id == id then {o} else {});
  }

  lemma HoldersLose(blocks: map<Obj, Block>, o: Obj, id: BlockId)
    requires o in blocks
    ensures |Holders(blocks - {o}, id)| == |Holders(blocks, id)| - (if blocks[o].id == id then 1 else 0)
    ensures |Holders(blocks, id)| == 1 && blocks[o].id == id ==> Holders(blocks - {o}, id) == {}
  {
    assert Holders(blocks - {o}, id) == Holders(blocks, id) - {o};
  }

  /** One object more: exactly its id gains a use. */
  lemma CountedGain(s: State, held: Option<BlockId>, o: Obj, b: Block, t: State)
    requires Counted(s, held) && o !in s.blocks && b.id in s.refs && t.blocks == s.blocks[o := b]
    requires t.refs.Keys == s.refs.Keys
    requires forall id :: id in s.refs ==> t.refs[id] == s.refs[id] - Own(held, id) + (if b.id == id then 1 else 0)
    ensures Counted(t, None)
  {
    forall id | id in s.refs ensures t.refs[id] == |Holders(t.blocks, id)| {
      HoldersGain(s.blocks, o, b, id);
    }
  }

  /** One object less: exactly its id loses a use, unless the operation keeps it. */
  lemma CountedLose(s: State, o: Obj, t: State, held: Option<BlockId>)
    requires Counted(s, None) && o in s.blocks && t.blocks == s.blocks - {o}
    requires held.Some? ==> held.value == s.blocks[o].id && s.refs[held.value] == 1
    requires t.refs.Keys == s.refs.Keys
    requires forall id :: id in s.refs ==>
      t.refs[id] == s.refs[id] + Own(held, id) - (if s.blocks[o].id == id then 1 else 0)
    ensures Counted(t, held)
  {
    forall id | id in s.refs
      ensures t.refs[id] == |Holders(t.blocks, id)| + Own(held, id)
      ensures held == Some(id) ==> Holders(t.blocks, id) == {}
    {
      HoldersLose(s.blocks, o, id);
    }
  }

  lemma CountedSame(s: State, held: Option<BlockId>, t: State, held': Option<BlockId>)
    requires Counted(s, held) && t.blocks == s.blocks && t.refs.Keys == s.refs.Keys
    requires held'.Some? ==> held'.value in s.refs && s.refs[held'.value] == 0
    requires forall id :: id in s.refs ==> t.refs[id] == s.refs[id] + Own(held', id) - Own(held, id)
    ensures Counted(t, held')
  {
    forall id | id in s.refs ensures Holders(t.blocks, id) == Holders(s.blocks, id) {}
  }

  lemma EntryFact(s: State, held: Option<BlockId>, h: HashValue)
    requires CacheOk(s, held) && h in s.cached
    ensures EntryOk(s, h) && held != Some(s.cached[h])
  {
  }

  lemma BlockFact(s: State, held: Option<BlockId>, o: Obj)
    requires InvHeld(s, held) && o in s.blocks
    ensures BlockOk(s, o)
  {
  }

  lemma EntriesKept(s: State, t: State)
    requires t.cfg == s.cfg && t.refs.Keys == s.refs.Keys
    requires forall h :: h in s.cached ==> EntryOk(s, h)
    requires forall h :: h in t.cached ==> h in s.cached && t.cached[h] == s.cached[h]
    requires forall h :: h in t.cached ==>
      t.cached[h] in t.refs && (t.refs[t.cached[h]] > 0 || t.cached[h] in t.evictor)
    requires forall h :: h in t.cached ==> Reported(t, t.cached[h]) || t.cached[h] in t.touched
    requires t.memory == s.memory
    ensures forall h :: h in t.cached ==> EntryOk(t, h)
  {
  }

  /** A move that founds no entry and keeps memory keeps the cache, if entries stay used and due to be reported. */
  lemma CacheKept(s: State, held: Option<BlockId>, t: State, held': Option<BlockId>)
    requires CacheOk(s, held) && t.cfg == s.cfg && t.refs.Keys == s.refs.Keys && t.memory == s.memory
    requires forall h :: h in t.cached ==>
      h in s.cached && t.cached[h] == s.cached[h] && held' != Some(t.cached[h]) && EntryStays(t, t.cached[h])
    requires forall id :: id in t.evictor ==> (id in s.evictor && CandidateStays(s, t, id)) || CandidateOk(t, id)
    requires forall o :: o in t.blocks ==> o in s.blocks && t.blocks[o] == s.blocks[o]
    ensures CacheOk(t, held')
  {
    hide Partitioned, Ready, ChainHash, PrefixHash, Span;
    forall h | h in t.cached ensures EntryOk(t, h) { EntryFact(s, held, h); }
    forall id | id in t.evictor ensures CandidateOk(t, id) {
      if id in s.evictor && CandidateStays(s, t, id) { assert CandidateOk(s, id); }
    }
  }

  ghost predicate EntryStays(t: State, id: BlockId) {
    id in t.refs && (t.refs[id] > 0 || id in t.evictor) && (Reported(t, id) || id in t.touched)
  }

  ghost predicate CandidateStays(s: State, t: State, id: BlockId)
    requires id in s.evictor && id in t.evictor
  {
    t.evictor[id] == s.evictor[id] && t.evictor[id].prefixHash in t.cached
  }

  lemma BlocksKept(s: State, t: State)
    requires t.cfg == s.cfg && t.memory == s.memory
    requires forall o :: o in s.blocks ==> BlockOk(s, o)
    requires forall o :: o in t.blocks ==> o in s.blocks && t.blocks[o] == s.blocks[o]
    requires forall o :: o in t.blocks ==>
      var h := HashOf(s.cfg, t.blocks[o]); h in s.cached ==> h in t.cached && t.cached[h] == s.cached[h]
    ensures forall o :: o in t.blocks ==> BlockOk(t, o)
  {
    forall o | o in t.blocks ensures BlockOk(t, o) { assert BlockOk(s, o); }
  }

  /** A full block without trailing placeholder is known in full. */
  lemma KnownWhole(cfg: Config, b: Block)
    requires b.tokens != [] ==> b.tokens[|b.tokens| - 1] != PLACEHOLDER_TOKEN
    ensures Known(b.tokens) == b.tokens && Content(b) == ChainOf(b)
  {
  }

  // ---------- the moves: what each leaves behind, and that it keeps the invariant ----------

  function Used(s: State, id: BlockId, computed: bool): State
    requires id in s.refs
  {
    s.(refs := s.refs[id := s.refs[id] + 1],
      info := s.info[id := BlockInfo(true, computed, DEFAULT_LAST_ACCESSED_TIME)])
  }

  function Unused(s: State, id: BlockId): State {
    s.(refs := s.refs[id := 0], info := s.info[id := BlockInfo(false, false, DEFAULT_LAST_ACCESSED_TIME)])
  }

  function TakenFree(s: State): State
    requires s.free != [] && s.free[0] in s.refs
  {
    Used(s.(free := s.free[1..]), s.free[0], false)
  }

  lemma TakeFreePartition(s: State)
    requires Partitioned(s) && s.free != [] && s.free[0] in s.refs && s.refs[s.free[0]] == 0
    ensures Partitioned(TakenFree(s))
  {
    var t := TakenFree(s);
    assert forall k :: k in t.free ==> k in s.free;
    forall k | k in s.free && k != s.free[0] ensures k in t.free {
      var i :| 0 <= i < |s.free| && s.free[i] == k;
      assert t.free[i - 1] == k;
    }
  }

  lemma TakeFree(s: State, pick: BlockId)
    requires Inv(s) && s.free != []
    ensures s.free[0] in s.refs && AllocateBlockId(s, pick) == Ok((s.free[0], TakenFree(s)))
    ensures InvHeld(TakenFree(s), Some(s.free[0]))
  {
    var id := s.free[0];
    assert id in s.free;
    var t := TakenFree(s);
    TakeFreePartition(s);
    CountedSame(s, None, t, Some(id));
    TakeFreeCache(s);
    hide Partitioned, CacheOk, Counted;
    BlocksKept(s, t);
  }

  lemma TakeFreeCache(s: State)
    requires Partitioned(s) && CacheOk(s, None) && s.free != []
    ensures s.free[0] in s.refs && CacheOk(TakenFree(s), Some(s.free[0]))
  {
    hide Ready, ChainHash, PrefixHash, Span;
    var id := s.free[0];
    assert id in s.free;
    var t := TakenFree(s);
    forall h | h in t.cached ensures id != t.cached[h] && EntryStays(t, t.cached[h]) { EntryFact(s, None, h); }
    forall k | k in t.evictor ensures CandidateStays(s, t, k) { assert CandidateOk(s, k); }
    CacheKept(s, None, t, Some(id));
  }

  function TakenEvicted(s: State, id: BlockId): State
    requires id in s.evictor && id in s.refs
  {
    Used(s.(evictor := s.evictor - {id}, cached := s.cached - {s.evictor[id].prefixHash}), id, false)
  }

  lemma TakenPartition(s: State, id: BlockId)
    requires Partitioned(s) && s.free == [] && id in s.evictor && id in s.info
    ensures Partitioned(TakenEvicted(s, id))
  {
  }

  lemma TakeEvicted(s: State, id: BlockId)
    requires Inv(s) && s.free == [] && id in s.evictor
    ensures id in s.refs && InvHeld(TakenEvicted(s, id), Some(id))
  {
    var key := s.evictor[id].prefixHash;
    EntryFact(s, None, key);
    var t := TakenEvicted(s, id);
    TakenPartition(s, id);
    CountedSame(s, None, t, Some(id));
    TakeEvictedCache(s, id);
    hide Partitioned, CacheOk, Counted;
    forall o | o in s.blocks ensures HashOf(s.cfg, s.blocks[o]) != key {
      EvictedHashUnheld(s, id, o);
    }
    BlocksKept(s, t);
  }

  lemma TakeEvictedCache(s: State, id: BlockId)
    requires Partitioned(s) && CacheOk(s, None) && id in s.evictor
    ensures id in s.refs && CacheOk(TakenEvicted(s, id), Some(id))
  {
    hide Ready, PrefixHash, Span;
    var key := s.evictor[id].prefixHash;
    var t := TakenEvicted(s, id);
    assert CandidateOk(s, id);
    forall h | h in t.cached ensures id != t.cached[h] && EntryStays(t, t.cached[h]) {
      EntryFact(s, None, h);
      EntryFact(s, None, key);
    }
    forall k | k in t.evictor ensures CandidateStays(s, t, k) { assert CandidateOk(s, k); }
    CacheKept(s, None, t, Some(id));
  }

  /** No live block carries the hash of an eviction candidate. */
  lemma EvictedHashUnheld(s: State, id: BlockId, o: Obj)
    requires Inv(s) && id in s.evictor && o in s.blocks
    ensures HashOf(s.cfg, s.blocks[o]) != s.evictor[id].prefixHash
  {
    BlockFact(s, None, o);
    EntryFact(s, None, s.evictor[id].prefixHash);
    assert Holders(s.blocks, id) == {};
    assert o !in Holders(s.blocks, id);
  }

  /** A private id takes an object, and a shareable object founds a cache entry. */
  function Bound(s: State, o: Obj, b: Block): State {
    var t := s.(blocks := s.blocks[o := b], memory := s.memory[b.id := Content(b)]);
    var h := HashOf(s.cfg, b);
    if h == INVALID_HASH_VALUE then t else t.(cached := s.cached[h := b.id], touched := s.touched + {b.id})
  }

  lemma Bind(s: State, o: Obj, b: Block)
    requires InvHeld(s, Some(b.id)) && o !in s.blocks && WellFormed(s.cfg, b)
    requires HashOf(s.cfg, b) !in s.cached
    ensures Inv(Bound(s, o, b))
  {
    var t := Bound(s, o, b);
    assert Partitioned(t);
    CountedGain(s, Some(b.id), o, b, t);
    BindBlocks(s, o, b);
    BindCache(s, o, b);
  }

  lemma BindBlocks(s: State, o: Obj, b: Block)
    requires InvHeld(s, Some(b.id)) && o !in s.blocks && WellFormed(s.cfg, b)
    requires HashOf(s.cfg, b) !in s.cached
    ensures forall p :: p in Bound(s, o, b).blocks ==> BlockOk(Bound(s, o, b), p)
  {
    var t := Bound(s, o, b);
    forall p | p in t.blocks ensures BlockOk(t, p) {
      if p != o {
        BlockFact(s, Some(b.id), p);
        assert p !in Holders(s.blocks, b.id);
      }
    }
  }

  lemma BindCache(s: State, o: Obj, b: Block)
    requires InvHeld(s, Some(b.id)) && o !in s.blocks && WellFormed(s.cfg, b)
    requires HashOf(s.cfg, b) !in s.cached
    ensures CacheOk(Bound(s, o, b), None)
  {
    var t := Bound(s, o, b);
    var h := HashOf(s.cfg, b);
    if h != INVALID_HASH_VALUE { KnownWhole(s.cfg, b); }
    forall k | k in t.cached ensures EntryOk(t, k) {
      if k != h { EntryFact(s, Some(b.id), k); }
    }
    forall p | p in s.blocks ensures s.blocks[p].id != b.id { assert p !in Holders(s.blocks, b.id); }
  }

  /** The sole holder of an uncached id steps aside; the operation keeps the id. */
  lemma Unbind(s: State, o: Obj)
    requires Inv(s) && o in s.blocks && s.refs[s.blocks[o].id] == 1
    requires HashOf(s.cfg, s.blocks[o]) == INVALID_HASH_VALUE
    ensures InvHeld(s.(blocks := s.blocks - {o}), Some(s.blocks[o].id))
  {
    var t := s.(blocks := s.blocks - {o});
    CountedLose(s, o, t, Some(s.blocks[o].id));
    EntriesKept(s, t);
    BlocksKept(s, t);
  }

  function Dropped(s: State, id: BlockId): State {
    Unused(s.(free := s.free + [id]), id)
  }

  /** An id the operation kept goes back to the free deque. */
  lemma Drop(s: State, id: BlockId)
    requires InvHeld(s, Some(id))
    ensures ReleaseId(s, id) == Ok(Dropped(s, id))
    ensures Inv(Dropped(s, id))
  {
    var t := Dropped(s, id);
    DropPartition(s, id);
    CountedSame(s, Some(id), t, None);
    DropCache(s, id);
    hide Partitioned, CacheOk, Counted;
    BlocksKept(s, t);
  }

  lemma DropCache(s: State, id: BlockId)
    requires Partitioned(s) && CacheOk(s, Some(id)) && id in s.refs
    ensures CacheOk(Dropped(s, id), None)
  {
    hide Ready, ChainHash, PrefixHash, Span;
    var t := Dropped(s, id);
    forall h | h in t.cached ensures EntryStays(t, t.cached[h]) { EntryFact(s, Some(id), h); }
    forall k | k in t.evictor ensures CandidateStays(s, t, k) { assert CandidateOk(s, k); }
    CacheKept(s, Some(id), t, None);
  }

  lemma DropPartition(s: State, id: BlockId)
    requires Partitioned(s) && id in s.refs && s.refs[id] == 1
    ensures Partitioned(Dropped(s, id))
  {
    var t := Dropped(s, id);
    assert forall k :: k in t.free <==> k in s.free || k == id;
  }

  function Unshared(s: State, o: Obj): State
    requires o in s.blocks && s.blocks[o].id in s.refs
  {
    s.(blocks := s.blocks - {o}, refs := s.refs[s.blocks[o].id := s.refs[s.blocks[o].id] - 1])
  }

  /** An object leaves an id that others still hold. */
  lemma Unshare(s: State, o: Obj)
    requires Inv(s) && o in s.blocks && s.refs[s.blocks[o].id] > 1
    ensures Inv(Unshared(s, o))
  {
    var t := Unshared(s, o);
    CountedLose(s, o, t, None);
    assert CacheOk(t, None) by { PlainCache(s, t); }
    BlocksKept(s, t);
  }

  /** Less objects, fewer uses: no entry is lost. */
  lemma PlainCache(s: State, t: State)
    requires CacheOk(s, None) && t.cfg == s.cfg && t.refs.Keys == s.refs.Keys && t.memory == s.memory
    requires t.cached == s.cached && t.evictor == s.evictor && t.info == s.info && t.touched == s.touched
    requires forall id :: id in s.refs && s.refs[id] > 0 ==> t.refs[id] > 0
    requires forall o :: o in t.blocks ==> o in s.blocks && t.blocks[o] == s.blocks[o]
    ensures CacheOk(t, None)
  {
    hide Ready, ChainHash, PrefixHash, Span;
    forall h | h in t.cached ensures EntryStays(t, t.cached[h]) { EntryFact(s, None, h); }
    forall k | k in t.evictor ensures CandidateStays(s, t, k) { assert CandidateOk(s, k); }
    CacheKept(s, None, t, None);
  }

  function Retired(s: State, o: Obj): State
    requires o in s.blocks && s.blocks[o].id in s.info
  {
    var b := s.blocks[o];
    Unused(s.(blocks := s.blocks - {o}, evictor := s.evictor[b.id :=
      BlockMetaData(b.id, HashOf(s.cfg, b), TotalTokens(ChainOf(b)), s.info[b.id].lastAccessed)]), b.id)
  }

  /** The last holder of a cached id hands it to the evictor. */
  lemma Retire(s: State, o: Obj)
    requires Inv(s) && o in s.blocks && s.refs[s.blocks[o].id] == 1
    requires HashOf(s.cfg, s.blocks[o]) != INVALID_HASH_VALUE
    ensures s.blocks[o].id !in s.evictor && Inv(Retired(s, o))
  {
    BlockFact(s, None, o);
    var t := Retired(s, o);
    assert Partitioned(t);
    CountedLose(s, o, t, None);
    RetireCache(s, o);
    hide Partitioned, CacheOk, Counted;
    BlocksKept(s, t);
  }

  lemma RetireCache(s: State, o: Obj)
    requires Partitioned(s) && CacheOk(s, None) && o in s.blocks && BlockOk(s, o)
    requires s.blocks[o].id in s.refs && s.refs[s.blocks[o].id] == 1
    requires HashOf(s.cfg, s.blocks[o]) != INVALID_HASH_VALUE
    ensures CacheOk(Retired(s, o), None)
  {
    hide ChainHash;
    var t := Retired(s, o);
    var b := s.blocks[o];
    KnownWhole(s.cfg, b);
    TotalIsSpan(s.cfg.blockSize, ChainOf(b));
    hide Ready, PrefixHash, Span, TotalTokens;
    forall h | h in t.cached ensures EntryStays(t, t.cached[h]) { EntryFact(s, None, h); }
    forall k | k in t.evictor && k != b.id ensures CandidateStays(s, t, k) { assert CandidateOk(s, k); }
    CacheKept(s, None, t, None);
  }

  /** A complete chain has as many tokens as its blocks hold. */
  lemma {:induction false} TotalIsSpan(blockSize: nat, c: Chain)
    requires Ready(blockSize, c)
    ensures TotalTokens(c) == Span(blockSize, c)
  {
    if c.before.Link? { TotalIsSpan(blockSize, c.before); }
  }

  function Joined(s: State, o: Obj, b: Block): State
    requires b.id in s.refs
  {
    var t := s.(blocks := s.blocks[o := b]);
    if s.refs[b.id] == 0 then Used(t.(evictor := s.evictor - {b.id}), b.id, true)
    else t.(refs := s.refs[b.id := s.refs[b.id] + 1])
  }

  /** A block whose content is cached shares the cached id. */
  lemma Join(s: State, o: Obj, b: Block)
    requires CollisionFree(s.cfg.mix)
    requires Inv(s) && o !in s.blocks && WellFormed(s.cfg, b)
    requires var h := HashOf(s.cfg, b); h in s.cached && b.id == s.cached[h]
    ensures b.id in s.refs && b.id in s.memory && s.memory[b.id] == Content(b) == ChainOf(b)
    ensures Inv(Joined(s, o, b))
  {
    JoinContent(s, b);
    EntryFact(s, None, HashOf(s.cfg, b));
    JoinPartition(s, o, b);
    CountedGain(s, None, o, b, Joined(s, o, b));
    JoinBlocks(s, o, b);
    JoinCache(s, o, b);
  }

  lemma JoinCache(s: State, o: Obj, b: Block)
    requires CacheOk(s, None) && o !in s.blocks && b.id in s.refs
    requires var h := HashOf(s.cfg, b); h in s.cached && b.id == s.cached[h]
    ensures CacheOk(Joined(s, o, b), None)
  {
    hide Ready, ChainHash, Span, PrefixHash;
    EntriesKept(s, Joined(s, o, b));
    forall k | k in s.cached && s.cached[k] == b.id ensures k == HashOf(s.cfg, b) {
      EntryFact(s, None, k);
      EntryFact(s, None, HashOf(s.cfg, b));
    }
  }

  lemma JoinPartition(s: State, o: Obj, b: Block)
    requires Partitioned(s) && b.id in s.refs && s.refs[b.id] >= 0 && (s.refs[b.id] > 0 || b.id in s.evictor)
    ensures Partitioned(Joined(s, o, b))
  {
  }

  lemma JoinBlocks(s: State, o: Obj, b: Block)
    requires Inv(s) && o !in s.blocks && WellFormed(s.cfg, b) && b.id in s.refs
    requires var h := HashOf(s.cfg, b); h in s.cached && b.id == s.cached[h]
    requires b.id in s.memory && s.memory[b.id] == Content(b)
    ensures forall p :: p in Joined(s, o, b).blocks ==> BlockOk(Joined(s, o, b), p)
  {
    var t := Joined(s, o, b);
    forall p | p in t.blocks ensures BlockOk(t, p) {
      if p != o { BlockFact(s, None, p); }
    }
  }

  /** The id a hit yields already holds the content that missed would have been computed. */
  lemma JoinContent(s: State, b: Block)
    requires CollisionFree(s.cfg.mix)
    requires CacheOk(s, None)
    requires var h := HashOf(s.cfg, b); h in s.cached && b.id == s.cached[h]
    ensures b.id in s.memory && s.memory[b.id] == Content(b) == ChainOf(b)
  {
    KnownWhole(s.cfg, b);
    EntryFact(s, None, HashOf(s.cfg, b));
    ChainHashInjective(s.cfg.mix, s.cfg.blockSize, s.memory[b.id], ChainOf(b));
  }

  function Copied(s: State, o: Obj, copy: Obj): State
    requires o in s.blocks && s.blocks[o].id in s.refs
  {
    s.(blocks := s.blocks[copy := s.blocks[o]], refs := s.refs[s.blocks[o].id := s.refs[s.blocks[o].id] + 1])
  }

  lemma Copy(s: State, o: Obj, copy: Obj)
    requires Inv(s) && o in s.blocks && copy !in s.blocks
    ensures ForkBlock(s, o, copy) == Ok(Copied(s, o, copy)) && Inv(Copied(s, o, copy))
  {
    var b := s.blocks[o];
    HolderUses(s, None, o);
    var t := Copied(s, o, copy);
    assert Partitioned(t);
    CountedGain(s, None, copy, b, t);
    EntriesKept(s, t);
    forall p | p in t.blocks ensures BlockOk(t, p) {
      BlockFact(s, None, if p == copy then o else p);
    }
  }

  lemma HolderUses(s: State, held: Option<BlockId>, o: Obj)
    requires Counted(s, held) && o in s.blocks
    ensures s.refs[s.blocks[o].id] >= 1
  {
    assert o in Holders(s.blocks, s.blocks[o].id);
  }
}
