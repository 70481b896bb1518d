/** Each public operation of the prefix-caching allocator: when it succeeds, that its internal
    checks never fire, and what it leaves unchanged. */
module PrefixCacheOperations {
  import opened Basics
  import opened PrefixChain
  import opened LruEvictor
  import opened PrefixCacheSpec
  import opened PrefixCacheSteps

  /** `t` is `s` except for the ledgers and the object `o`, which now is `b` under some id. */
  ghost predicate Places(s: State, t: State, o: Obj, b: Block) {
    && t.cfg == s.cfg
    && o in t.blocks
    && t.blocks == s.blocks[o := b.(id := t.blocks[o].id)]
  }

  /** Memory changed at most under `id`. */
  ghost predicate MemoryElsewhere(s: State, t: State, id: BlockId) {
    forall i :: i != id ==> (i in t.memory <==> i in s.memory) && (i in s.memory ==> t.memory[i] == s.memory[i])
  }

  /** Some live object shares the content of hash `h`. */
  ghost predicate InUse(s: State, h: HashValue) {
    h in s.cached && s.cached[h] !in s.evictor
  }

  /** Allocation of an id fails exactly when neither a free nor an evictable id is left. */
  lemma AllocateBlockIdCorrect(s: State, pick: BlockId)
    requires Inv(s)
    ensures Available(s) == 0 <==> AllocateBlockId(s, pick) == Err(Exhausted)
    ensures Available(s) > 0 ==> AllocateBlockId(s, pick).Ok?
    ensures Available(s) > 0 ==>
      var (id, t) := AllocateBlockId(s, pick).value;
      && InvHeld(t, Some(id)) && Available(t) == Available(s) - 1
      && t.cfg == s.cfg && t.blocks == s.blocks && t.memory == s.memory && t.cows == s.cows
      && id in s.refs && s.refs[id] == 0
      && (s.free != [] ==> id == s.free[0] && t.free == s.free[1..] && t.evictor == s.evictor && t.cached == s.cached)
      && (s.free == [] ==> id in s.evictor && (pick in s.evictor ==> id == pick) && t.free == []
                           && t.evictor == s.evictor - {id} && t.cached == s.cached - {s.evictor[id].prefixHash})
      && t.touched == s.touched && t.refs == s.refs[id := 1]
      && t.info == s.info[id := BlockInfo(true, false, DEFAULT_LAST_ACCESSED_TIME)]
      && (forall h :: InUse(t, h) <==> InUse(s, h))
  {
    hide InvHeld;
    if s.free != [] {
      TakeFree(s, pick);
      FreeUnused(s);
    } else if s.evictor.Keys != {} {
      var id := Victim(s.evictor, pick);
      AllocateEvicts(s, pick);
      WithoutCandidate(s.evictor, id);
    }
  }

  lemma FreeUnused(s: State)
    requires Inv(s) && s.free != []
    ensures s.free[0] in s.refs && s.refs[s.free[0]] == 0
  {
    assert s.free[0] in s.free;
  }

  lemma AllocateEvicts(s: State, pick: BlockId)
    requires Inv(s) && s.free == [] && s.evictor.Keys != {}
    ensures
      var id := Victim(s.evictor, pick);
      && id in s.refs && s.refs[id] == 0 && AllocateBlockId(s, pick) == Ok((id, TakenEvicted(s, id)))
      && InvHeld(TakenEvicted(s, id), Some(id))
      && forall h :: InUse(TakenEvicted(s, id), h) <==> InUse(s, h)
  {
    var id := Victim(s.evictor, pick);
    TakeEvicted(s, id);
    EntryFact(s, None, s.evictor[id].prefixHash);
  }

  /** The object `o` holds `b`, whose id nobody else uses and no cache entry names. */
  ghost predicate Loose(s: State, o: Obj, b: Block) {
    && o !in s.blocks
    && InvHeld(s, Some(b.id))
    && WellFormed(s.cfg, b)
  }

  /** The device already holds the first `from` known tokens of `b`, behind its whole prefix. */
  ghost predicate Holds(s: State, b: Block, from: nat) {
    && from <= |Known(b.tokens)|
    && (from > 0 ==>
          b.id in s.memory && s.memory[b.id] == Link(b.before, Known(b.tokens)[..from], b.extra))
  }

  /** Computing the rest of a block completes it exactly if the memory it builds on holds the part
      before, in the same context. */
  lemma ComputedRight(kept: Chain, b: Block, from: nat)
    requires from <= |Known(b.tokens)|
    ensures Computed(kept, b, from) == Content(b) <==>
      from > 0 ==> kept.Link? && from <= |kept.tokens| && kept.before == b.before && kept.extra == b.extra
                   && kept.tokens[..from] == Known(b.tokens)[..from]
  {
    var known := Known(b.tokens);
    assert known[..from] + known[from..] == known;
    if from > 0 && kept.Link? && from <= |kept.tokens| {
      assert (kept.tokens[..from] + known[from..])[..from] == kept.tokens[..from];
    }
  }

  lemma WriteBackCompletes(s: State, o: Obj, from: nat)
    requires o in s.blocks && Holds(s, s.blocks[o], from)
    ensures WriteBack(s, o, from) == s.(memory := s.memory[s.blocks[o].id := Content(s.blocks[o])])
  {
    var b := s.blocks[o];
    ComputedRight(if b.id in s.memory then s.memory[b.id] else Root, b, from);
  }

  /** Promotion and write-back: the object ends on its own id or on the cached one. */
  lemma SettleCorrect(s: State, o: Obj, b: Block, from: nat)
    requires CollisionFree(s.cfg.mix) && Loose(s, o, b) && Holds(s, b, from)
    ensures Settle(s.(blocks := s.blocks[o := b]), o, from).Ok?
    ensures var t := Settle(s.(blocks := s.blocks[o := b]), o, from).value;
      && Inv(t) && Places(s, t, o, b) && t.cows == s.cows && MemoryElsewhere(s, t, t.blocks[o].id)
      && Available(t) == Available(s) + Spared(s, b)
      && (HashOf(s.cfg, b) !in s.cached ==> t.blocks[o].id == b.id && t.refs == s.refs)
      && (HashOf(s.cfg, b) in s.cached ==> t.blocks[o].id == s.cached[HashOf(s.cfg, b)] && t.memory == s.memory)
  {
    hide InvHeld, Settle, CollisionFree, WellFormed, MemoryElsewhere;
    if HashOf(s.cfg, b) !in s.cached {
      Bind(s, o, b);
      SettleBinds(s, o, b, from);
      OneWritten(s, Bound(s, o, b), b.id, Content(b));
    } else {
      SettleHit(s, o, b, from);
      ElsewhereSelf(s, Settle(s.(blocks := s.blocks[o := b]), o, from).value, s.cached[HashOf(s.cfg, b)]);
    }
  }

  lemma OneWritten(s: State, t: State, id: BlockId, c: Chain)
    requires t.memory == s.memory[id := c]
    ensures MemoryElsewhere(s, t, id)
  {
  }

  lemma ElsewhereSelf(s: State, t: State, id: BlockId)
    requires t.memory == s.memory
    ensures MemoryElsewhere(s, t, id)
  {
  }

  /** Ids a settling block gives back: its own, if its content is cached under an id still in use. */
  ghost function Spared(s: State, b: Block): nat {
    if InUse(s, HashOf(s.cfg, b)) then 1 else 0
  }

  lemma SettleBinds(s: State, o: Obj, b: Block, from: nat)
    requires HashOf(s.cfg, b) !in s.cached && Holds(s, b, from)
    ensures Settle(s.(blocks := s.blocks[o := b]), o, from) == Ok(Bound(s, o, b))
  {
    var u := s.(blocks := s.blocks[o := b]);
    WriteBackCompletes(u, o, from);
    if HashOf(s.cfg, b) != INVALID_HASH_VALUE {
      WriteBackCompletes(PromoteToImmutableBlock(u, o).value, o, from);
    }
  }

  lemma SettleHit(s: State, o: Obj, b: Block, from: nat)
    requires CollisionFree(s.cfg.mix) && Loose(s, o, b) && HashOf(s.cfg, b) in s.cached
    requires from <= |Known(b.tokens)|
    ensures Settle(s.(blocks := s.blocks[o := b]), o, from).Ok?
    ensures var t := Settle(s.(blocks := s.blocks[o := b]), o, from).value;
      && Inv(t) && Places(s, t, o, b) && t.cows == s.cows
      && Available(t) == Available(s) + Spared(s, b)
      && t.blocks[o].id == s.cached[HashOf(s.cfg, b)] && t.memory == s.memory
  {
    var k := s.cached[HashOf(s.cfg, b)];
    var d := Dropped(s, b.id);
    var b' := b.(id := k);
    Drop(s, b.id);
    EntryFact(s, Some(b.id), HashOf(s.cfg, b));
    Join(d, o, b');
    var t := Joined(d, o, b');
    PromoteMoves(s, o, b);
    SettlePromoted(s.(blocks := s.blocks[o := b]), o, from, t);
    AvailableAfterJoin(d, o, b');
  }

  /** Writing a promoted block back changes nothing: its content was already there. */
  lemma SettlePromoted(u: State, o: Obj, from: nat, t: State)
    requires o in u.blocks && HashOf(u.cfg, u.blocks[o]) != INVALID_HASH_VALUE
    requires PromoteToImmutableBlock(u, o) == Ok(t) && o in t.blocks && from <= |Known(t.blocks[o].tokens)|
    requires t.blocks[o].id in t.memory && t.memory[t.blocks[o].id] == Content(t.blocks[o])
    ensures Settle(u, o, from) == Ok(t)
  {
    ComputedRight(t.memory[t.blocks[o].id], t.blocks[o], from);
    assert t.memory[t.blocks[o].id := Content(t.blocks[o])] == t.memory;
  }

  lemma PromoteMoves(s: State, o: Obj, b: Block)
    requires b.id in s.refs && s.refs[b.id] == 1 && b.id in s.info && s.info[b.id].active
    requires HashOf(s.cfg, b) in s.cached
    requires
      var k := s.cached[HashOf(s.cfg, b)];
      && k != b.id && k in s.refs && s.refs[k] >= 0 && k in s.info
      && (s.info[k].active <==> s.refs[k] > 0)
    ensures PromoteToImmutableBlock(s.(blocks := s.blocks[o := b]), o)
         == Ok(Joined(Dropped(s, b.id), o, b.(id := s.cached[HashOf(s.cfg, b)])))
  {
    var k := s.cached[HashOf(s.cfg, b)];
    var d := Dropped(s, b.id);
    assert s.blocks[o := b][o := b.(id := k)] == s.blocks[o := b.(id := k)];
    assert ReleaseId(s.(blocks := s.blocks[o := b]), b.id) == Ok(d.(blocks := s.blocks[o := b]));
  }

  lemma WithoutCandidate(m: map<BlockId, BlockMetaData>, id: BlockId)
    ensures |m - {id}| == |m| - (if id in m then 1 else 0)
  {
    assert (m - {id}).Keys == m.Keys - {id};
  }

  lemma AvailableAfterJoin(s: State, o: Obj, b: Block)
    requires b.id in s.refs && (s.refs[b.id] != 0 ==> b.id !in s.evictor)
    ensures Available(Joined(s, o, b)) == Available(s) - (if b.id in s.evictor then 1 else 0)
  {
    WithoutCandidate(s.evictor, b.id);
  }

  /** What a caller of AppendTokenIds owes: a live, unhashed block with room, whose tokens stay
      known-then-placeholder and whose prefix is complete before it gets a known token. */
  ghost predicate MayAppend(s: State, o: Obj, before: Chain, ts: seq<TokenId>) {
    && o in s.blocks
    && var b := s.blocks[o];
    && HashOf(s.cfg, b) == INVALID_HASH_VALUE
    && (Known(b.tokens) != [] ==> before == b.before)
    && WellFormed(s.cfg, Appended(b, before, ts))
  }

  function Appended(b: Block, before: Chain, ts: seq<TokenId>): Block {
    b.(before := before, tokens := b.tokens + ts)
  }

  ghost predicate Shared(s: State, o: Obj)
    requires o in s.blocks && s.blocks[o].id in s.refs
  {
    s.refs[s.blocks[o].id] > 1
  }

  /** A block without known tokens has no hash, whatever precedes it. */
  lemma RebasedHash(cfg: Config, b: Block, before: Chain)
    requires HashOf(cfg, b) == INVALID_HASH_VALUE && (Known(b.tokens) != [] ==> before == b.before)
    ensures HashOf(cfg, b.(before := before)) == INVALID_HASH_VALUE
  {
    if before != b.before && b.tokens != [] { assert Known(b.tokens) == []; }
  }

  lemma CowMoves(s: State, o: Obj, b: Block, pick: BlockId)
    requires Inv(s) && o in s.blocks && b.id == s.blocks[o].id
    requires s.refs[b.id] > 1
    ensures CowBlockIfNotAppendable(s.(blocks := s.blocks[o := b]), o, pick) ==
      var r := AllocateBlockId(Unshared(s, o), pick);
      if r.Err? then Err(r.error)
      else Ok(Recorded(r.value.1, (b.id, r.value.0)).(blocks := r.value.1.blocks[o := b.(id := r.value.0)]))
  {
    var u := s.(blocks := s.blocks[o := b]);
    PutBack(s.blocks, o, b);
    assert FreeBlockId(u, o) == Ok(Unshared(s, o));
  }

  /** Nobody else uses the object's id. */
  ghost predicate Alone(s: State, o: Obj)
    requires o in s.blocks
  {
    s.blocks[o].id in s.refs && s.refs[s.blocks[o].id] == 1
  }

  lemma UsesOf(s: State, o: Obj)
    requires Inv(s) && o in s.blocks
    ensures s.blocks[o].id in s.refs && s.blocks[o].id in s.info && s.refs[s.blocks[o].id] >= 1
    ensures s.info[s.blocks[o].id].active
    ensures Alone(s, o) <==> !Shared(s, o)
  {
    HolderUses(s, None, o);
  }

  /** How appending ends: it fails exactly when a shared block finds no id for its copy; otherwise the
      object, and nothing else, holds the longer block. A shared block moves to an unused id, and the
      recorded copy leads there; another stays on its id. Only a full block may end on a cached id. */
  ghost predicate AppendOutcome(s: State, o: Obj, b: Block, r: Result<State>)
    requires o in s.blocks && s.blocks[o].id in s.refs
  {
    match r
    case Err(e) => e == Exhausted && Shared(s, o) && Available(s) == 0
    case Ok(t) =>
      && Inv(t) && Places(s, t, o, b)
      && (Shared(s, o) ==> Available(s) > 0)
      && Available(t) == Available(s) - (if Shared(s, o) then 1 else 0) + Spared(s, b)
      && (if Shared(s, o) then
            exists id :: id in s.refs && s.refs[id] == 0 && CopiedTo(s, t, o, b, id)
          else
            t.cows == s.cows && (HashOf(s.cfg, b) == INVALID_HASH_VALUE ==> t.blocks[o].id == s.blocks[o].id))
      && (HashOf(s.cfg, b) == INVALID_HASH_VALUE ==> Alone(t, o))
  }

  /** The recorded copy leads from the object's old id to `id`, where an unhashed object ends. */
  ghost predicate CopiedTo(s: State, t: State, o: Obj, b: Block, id: BlockId)
    requires o in s.blocks && o in t.blocks
  {
    && t.cows == s.cows + [(s.blocks[o].id, id)]
    && (HashOf(s.cfg, b) == INVALID_HASH_VALUE ==> t.blocks[o].id == id)
  }

  lemma AppendTokenIdsCorrect(s: State, o: Obj, before: Chain, ts: seq<TokenId>, pick: BlockId)
    requires CollisionFree(s.cfg.mix) && Inv(s) && MayAppend(s, o, before, ts)
    ensures s.blocks[o].id in s.refs
    ensures AppendOutcome(s, o, Appended(s.blocks[o], before, ts), AppendTokenIds(s, o, before, ts, pick))
  {
    hide InvHeld, Settle, CowBlockIfNotAppendable, CollisionFree;
    var b := s.blocks[o];
    var b' := Appended(b, before, ts);
    var from := |Known(b.tokens)|;
    RebasedHash(s.cfg, b, before);
    UsesOf(s, o);
    KnownIsFirst(b.tokens);
    KnownKept(b.tokens, b.tokens + ts);
    BlockFact(s, None, o);
    var u := s.(blocks := s.blocks[o := b']);
    assert AppendTokenIds(s, o, before, ts, pick) == CowAndSettle(u, o, from, pick);
    if Shared(s, o) {
      AppendShared(s, o, b', from, pick);
    } else {
      AppendOwned(s, o, b', from);
      CowNot(u, o, pick);
    }
  }

  /** What appending refuses outright: an object without an id, a block that has a hash, and too many tokens. */
  lemma AppendRefuses(s: State, o: Obj, before: Chain, ts: seq<TokenId>, pick: BlockId)
    requires Inv(s)
    ensures AppendTokenIds(s, o, before, ts, pick) == Err(Misuse) <==>
      || o !in s.blocks
      || HashOf(s.cfg, s.blocks[o].(before := before)) != INVALID_HASH_VALUE
      || |s.blocks[o].tokens| + |ts| > s.cfg.blockSize
  {
    hide InvHeld, HashOf;
  }

  /** An unshared block stays where it is. */
  lemma CowNot(u: State, o: Obj, pick: BlockId)
    requires o in u.blocks && u.blocks[o].id in u.refs && u.refs[u.blocks[o].id] <= 1
    ensures CowBlockIfNotAppendable(u, o, pick) == Ok(u)
  {
  }

  /** A list that keeps the known tokens of another knows at least those. */
  lemma KnownKept(t: seq<TokenId>, u: seq<TokenId>)
    requires Suffixed(u) && Known(t) <= u
    ensures Known(t) <= Known(u)
  {
    KnownIsFirst(t);
    KnownMeaning(u);
  }

  /** Carrying out a copy onto the id an operation keeps touches no entry and no object. */
  lemma RecordCow(s: State, src: BlockId, id: BlockId)
    requires InvHeld(s, Some(id))
    ensures InvHeld(Recorded(s, (src, id)), Some(id))
  {
    var t := Recorded(s, (src, id));
    forall h | h in t.cached ensures EntryOk(t, h) { EntryFact(s, Some(id), h); }
    forall p | p in t.blocks ensures BlockOk(t, p) {
      BlockFact(s, Some(id), p);
      assert p !in Holders(s.blocks, id);
    }
  }

  lemma AppendOwned(s: State, o: Obj, b: Block, from: nat)
    requires CollisionFree(s.cfg.mix) && Inv(s) && WellFormed(s.cfg, b) && Holds(s, b, from)
    requires o in s.blocks && HashOf(s.cfg, s.blocks[o]) == INVALID_HASH_VALUE
    requires b.id == s.blocks[o].id && s.refs[b.id] == 1
    ensures AppendOutcome(s, o, b, Settle(s.(blocks := s.blocks[o := b]), o, from))
  {
    hide InvHeld, Settle, HashOf, CollisionFree;
    ZeroNotCached(s.(blocks := s.blocks - {o}), b.id) by { Unbind(s, o); }
    Unbind(s, o);
    var t := s.(blocks := s.blocks - {o});
    SettleCorrect(t, o, b, from);
    PutBack(s.blocks, o, b);
    PutBack(s.blocks, o, b.(id := Settle(s.(blocks := s.blocks[o := b]), o, from).value.blocks[o].id));
  }

  /** After copy-on-write the object alone holds a fresh id, which holds what the old one held, and
      the pair is on record. */
  ghost predicate CowedTo(s: State, o: Obj, b: Block, u: State)
    requires o in s.blocks && b.id in s.refs
  {
    && o in u.blocks
    && var id := u.blocks[o].id;
    && u.cfg == s.cfg
    && u.blocks == s.blocks[o := b.(id := id)]
    && InvHeld(u.(blocks := s.blocks - {o}), Some(id))
    && id in s.refs && s.refs[id] == 0
    && u.cows == s.cows + [(b.id, id)]
    && u.memory == CarriedOut(s.memory, (b.id, id))
    && Available(u) == Available(s) - 1
    && (forall h :: InUse(u, h) <==> InUse(s, h))
  }

  lemma CowCorrect(s: State, o: Obj, b: Block, pick: BlockId)
    requires Inv(s) && o in s.blocks && b.id == s.blocks[o].id && s.refs[b.id] > 1
    ensures
      var r := CowBlockIfNotAppendable(s.(blocks := s.blocks[o := b]), o, pick);
      if Available(s) == 0 then r == Err(Exhausted) else r.Ok? && CowedTo(s, o, b, r.value)
  {
    hide *;
    CowMoves(s, o, b, pick);
    CowAllocates(s, o, pick);
    if Available(s) > 0 {
      var (id, t) := AllocateBlockId(Unshared(s, o), pick).value;
      CowedEnd(s, o, b, id, t);
    }
  }

  /** The object leaves its shared id, and the copy lands on an unused one. */
  lemma CowAllocates(s: State, o: Obj, pick: BlockId)
    requires Inv(s) && o in s.blocks && s.refs[s.blocks[o].id] > 1
    ensures s.blocks[o].id in s.refs
    ensures
      var r := AllocateBlockId(Unshared(s, o), pick);
      if Available(s) == 0 then r == Err(Exhausted)
      else
        && r.Ok? && var (id, t) := r.value;
        && t.cfg == s.cfg && t.blocks == s.blocks - {o}
        && InvHeld(Recorded(t, (s.blocks[o].id, id)), Some(id)) && id in s.refs && s.refs[id] == 0
        && t.cows == s.cows && t.memory == s.memory && Available(t) == Available(s) - 1
        && (forall h :: InUse(t, h) <==> InUse(s, h))
  {
    hide Partitioned, CacheOk, BlockOk, AllocateBlockId;
    Unshare(s, o);
    var f := Unshared(s, o);
    AllocateBlockIdCorrect(f, pick);
    if Available(s) > 0 {
      var (id, t) := AllocateBlockId(f, pick).value;
      RecordCow(t, s.blocks[o].id, id);
    }
  }

  lemma CowedEnd(s: State, o: Obj, b: Block, id: BlockId, t: State)
    requires o in s.blocks && b.id in s.refs && t.cfg == s.cfg && t.blocks == s.blocks - {o}
    requires InvHeld(Recorded(t, (b.id, id)), Some(id)) && id in s.refs && s.refs[id] == 0
    requires t.cows == s.cows && t.memory == s.memory && Available(t) == Available(s) - 1
    requires forall h :: InUse(t, h) <==> InUse(s, h)
    ensures CowedTo(s, o, b, Recorded(t, (b.id, id)).(blocks := t.blocks[o := b.(id := id)]))
  {
    hide InvHeld;
    PutBack(s.blocks, o, b.(id := id));
    var u := Recorded(t, (b.id, id)).(blocks := t.blocks[o := b.(id := id)]);
    assert u.(blocks := s.blocks - {o}) == Recorded(t, (b.id, id));
  }

  lemma AppendShared(s: State, o: Obj, b: Block, from: nat, pick: BlockId)
    requires CollisionFree(s.cfg.mix) && Inv(s) && WellFormed(s.cfg, b) && Holds(s, b, from)
    requires o in s.blocks && b.id == s.blocks[o].id && s.refs[b.id] > 1
    ensures AppendOutcome(s, o, b, CowAndSettle(s.(blocks := s.blocks[o := b]), o, from, pick))
  {
    CowCorrect(s, o, b, pick);
    if Available(s) > 0 {
      var u := CowBlockIfNotAppendable(s.(blocks := s.blocks[o := b]), o, pick).value;
      SettleCowed(s, o, b, from, u);
      assert CopiedTo(s, Settle(u, o, from).value, o, b, u.blocks[o].id);
    }
  }

  lemma SettleCowed(s: State, o: Obj, b: Block, from: nat, u: State)
    requires CollisionFree(s.cfg.mix) && WellFormed(s.cfg, b) && Holds(s, b, from)
    requires o in s.blocks && b.id in s.refs && CowedTo(s, o, b, u)
    ensures Settle(u, o, from).Ok?
    ensures
      var t := Settle(u, o, from).value;
      Inv(t) && Places(s, t, o, b) && Available(t) == Available(s) - 1 + Spared(s, b) && t.cows == u.cows
      && (HashOf(s.cfg, b) == INVALID_HASH_VALUE ==> Alone(t, o) && t.blocks[o].id == u.blocks[o].id)
  {
    hide InvHeld, Settle, PrefixHash, CollisionFree;
    var b' := u.blocks[o];
    var t := u.(blocks := s.blocks - {o});
    PutBack(s.blocks, o, b');
    ZeroNotCached(t, b'.id);
    SettleCorrect(t, o, b', from);
    PutBack(s.blocks, o, Settle(u, o, from).value.blocks[o]);
  }

  /** How placing a new block ends: it fails exactly when it needs an id and none is left. */
  ghost predicate PlaceOutcome(s: State, o: Obj, b: Block, needsId: bool, r: Result<State>) {
    match r
    case Err(e) => e == Exhausted && needsId && Available(s) == 0
    case Ok(t) =>
      && (needsId ==> Available(s) > 0)
      && Inv(t) && Places(s, t, o, b) && t.cows == s.cows && MemoryElsewhere(s, t, t.blocks[o].id)
      && Available(t) == Available(s) - 1 + Spared(s, b)
      && (HashOf(s.cfg, b) == INVALID_HASH_VALUE ==> Alone(t, o))
  }

  ghost predicate MayPlace(s: State, o: Obj, before: Chain, ts: seq<TokenId>, extra: HashValue) {
    o !in s.blocks && WellFormed(s.cfg, Block(before, ts, extra, 0))
  }

  lemma AllocateMutableBlockCorrect(s: State, o: Obj, before: Chain, ts: seq<TokenId>, extra: HashValue, pick: BlockId)
    requires CollisionFree(s.cfg.mix) && Inv(s) && MayPlace(s, o, before, ts, extra)
    ensures PlaceOutcome(s, o, Block(before, ts, extra, 0), true, AllocateMutableBlock(s, o, before, ts, extra, pick))
  {
    AllocateBlockIdCorrect(s, pick);
    if Available(s) > 0 {
      var (id, t) := AllocateBlockId(s, pick).value;
      FirstAppend(t, o, Block(before, ts, extra, id), pick);
      SettlePlaces(s, t, o, Block(before, ts, extra, id));
    }
  }

  lemma SettlePlaces(s: State, t: State, o: Obj, b: Block)
    requires CollisionFree(s.cfg.mix) && Loose(t, o, b) && Available(s) > 0 && Available(t) == Available(s) - 1
    requires t.cfg == s.cfg && t.blocks == s.blocks && t.cows == s.cows && t.memory == s.memory
    requires forall h :: InUse(t, h) <==> InUse(s, h)
    ensures PlaceOutcome(s, o, b.(id := 0), true, Settle(t.(blocks := t.blocks[o := b]), o, 0))
  {
    hide InvHeld, Settle, MemoryElsewhere;
    SettleCorrect(t, o, b, 0);
    ZeroNotCached(t, b.id);
    ElsewhereSince(s, t, Settle(t.(blocks := t.blocks[o := b]), o, 0).value);
  }

  lemma ElsewhereSince(s: State, t: State, u: State)
    requires t.memory == s.memory
    ensures forall id :: MemoryElsewhere(t, u, id) ==> MemoryElsewhere(s, u, id)
  {
  }

  lemma ZeroNotCached(s: State, id: BlockId)
    requires InvHeld(s, Some(id))
    ensures INVALID_HASH_VALUE !in s.cached && id in s.refs && s.refs[id] == 1
  {
  }

  /** The append that fills a just allocated block goes straight to its settlement. */
  lemma FirstAppend(t: State, o: Obj, b: Block, pick: BlockId)
    requires b.id in t.refs && t.refs[b.id] == 1 && t.cfg.blockSize > 0 && |b.tokens| <= t.cfg.blockSize
    ensures AppendTokenIds(t.(blocks := t.blocks[o := b.(tokens := [])]), o, b.before, b.tokens, pick)
         == Settle(t.(blocks := t.blocks[o := b]), o, 0)
  {
    assert t.blocks[o := b.(tokens := [])][o := b] == t.blocks[o := b];
    assert b.(tokens := [] + b.tokens) == b;
  }

  lemma AllocateImmutableBlockCorrect(s: State, o: Obj, before: Chain, ts: seq<TokenId>, extra: HashValue,
                                      pick: BlockId)
    requires CollisionFree(s.cfg.mix) && Inv(s) && MayPlace(s, o, before, ts, extra)
    ensures
      var b := Block(before, ts, extra, 0);
      PlaceOutcome(s, o, b, HashOf(s.cfg, b) !in s.cached, AllocateImmutableBlock(s, o, before, ts, extra, pick))
  {
    hide InvHeld, CollisionFree, AllocateMutableBlock, IncrRefCountCacheBlock;
    var h := HashOf(s.cfg, Block(before, ts, extra, 0));
    if h in s.cached {
      var b := Block(before, ts, extra, s.cached[h]);
      HitJoins(s, o, b);
      JoinedAlone(s, o, b);
    } else {
      AllocateMutableBlockCorrect(s, o, before, ts, extra, pick);
    }
  }

  /** A hit joins the cached id. */
  lemma HitJoins(s: State, o: Obj, b: Block)
    requires CollisionFree(s.cfg.mix) && Inv(s) && o !in s.blocks && WellFormed(s.cfg, b)
    requires HashOf(s.cfg, b) in s.cached && b.id == s.cached[HashOf(s.cfg, b)]
    ensures b.id in s.refs && Inv(Joined(s, o, b)) && INVALID_HASH_VALUE !in s.cached
    ensures IncrRefCountCacheBlock(s.(blocks := s.blocks[o := b]), b.id) == Ok(Joined(s, o, b))
    ensures Available(Joined(s, o, b)) == Available(s) - (if b.id in s.evictor then 1 else 0)
  {
    hide *;
    CachedId(s, HashOf(s.cfg, b));
    Join(s, o, b);
    IncrJoins(s, o, b);
    AvailableAfterJoin(s, o, b);
  }

  lemma CachedId(s: State, h: HashValue)
    requires Inv(s) && h in s.cached
    ensures
      var id := s.cached[h];
      && id in s.refs && s.refs[id] >= 0 && id in s.info && (s.info[id].active <==> s.refs[id] > 0)
      && (s.refs[id] != 0 ==> id !in s.evictor)
    ensures INVALID_HASH_VALUE !in s.cached
  {
    EntryFact(s, None, h);
  }

  lemma IncrJoins(s: State, o: Obj, b: Block)
    requires b.id in s.refs && s.refs[b.id] >= 0 && b.id in s.info && (s.info[b.id].active <==> s.refs[b.id] > 0)
    ensures IncrRefCountCacheBlock(s.(blocks := s.blocks[o := b]), b.id) == Ok(Joined(s, o, b))
  {
  }

  lemma JoinedAlone(s: State, o: Obj, b: Block)
    requires b.id in s.refs
    ensures
      var t := Joined(s, o, b);
      t.cfg == s.cfg && t.blocks == s.blocks[o := b] && t.cows == s.cows && t.memory == s.memory
  {
  }

  /** What a caller of ReplaceToken owes: the first placeholder of an unshared block is replaced by a
      token, behind the prefix the tokens before it were computed in. */
  ghost predicate MayReplace(s: State, o: Obj, before: Chain, i: nat, token: TokenId) {
    && o in s.blocks
    && var b := s.blocks[o];
    && i < |b.tokens| && b.tokens[i] == PLACEHOLDER_TOKEN
    && b.id in s.refs && !Shared(s, o)
    && (Known(b.tokens) != [] ==> before == b.before)
    && WellFormed(s.cfg, Replaced(b, before, i, token))
  }

  function Replaced(b: Block, before: Chain, i: nat, token: TokenId): Block
    requires i < |b.tokens|
  {
    b.(before := before, tokens := b.tokens[i := token])
  }

  lemma ReplaceTokenCorrect(s: State, o: Obj, before: Chain, i: nat, token: TokenId)
    requires CollisionFree(s.cfg.mix) && Inv(s) && MayReplace(s, o, before, i, token)
    ensures ReplaceToken(s, o, before, i, token).Ok?
    ensures
      var t := ReplaceToken(s, o, before, i, token).value;
      && Inv(t) && Places(s, t, o, Replaced(s.blocks[o], before, i, token))
      && Available(t) == Available(s) + Spared(s, Replaced(s.blocks[o], before, i, token)) && t.cows == s.cows
      && (HashOf(s.cfg, Replaced(s.blocks[o], before, i, token)) == INVALID_HASH_VALUE ==>
            Alone(t, o) && t.blocks[o].id == s.blocks[o].id)
  {
    hide Partitioned, CacheOk, BlockOk, Settle, MayReplace, WellFormed;
    ReplaceReady(s, o, before, i, token);
    AppendOwned(s, o, Replaced(s.blocks[o], before, i, token), |Known(s.blocks[o].tokens)|);
  }

  /** The block a token may be replaced in is alone on its id, unhashed, and its known tokens are computed. */
  lemma ReplaceReady(s: State, o: Obj, before: Chain, i: nat, token: TokenId)
    requires Inv(s) && MayReplace(s, o, before, i, token)
    ensures o in s.blocks && i < |s.blocks[o].tokens| && s.blocks[o].id in s.refs && s.refs[s.blocks[o].id] == 1
    ensures HashOf(s.cfg, s.blocks[o]) == INVALID_HASH_VALUE
    ensures
      var b := s.blocks[o];
      var b' := Replaced(b, before, i, token);
      && WellFormed(s.cfg, b') && Holds(s, b', |Known(b.tokens)|)
  {
    BlockFact(s, None, o);
    var b := s.blocks[o];
    assert b.tokens[|b.tokens| - 1] == PLACEHOLDER_TOKEN;
    HolderUses(s, None, o);
    KnownIsFirst(b.tokens);
    assert i >= |Known(b.tokens)| by { KnownMeaning(b.tokens); }
    KnownKept(b.tokens, b.tokens[i := token]);
  }

  /** The id the object had waits for eviction, with the last stamp it got and the length of its prefix. */
  ghost predicate Evictable(s: State, t: State, o: Obj)
    requires o in s.blocks
  {
    var b := s.blocks[o];
    && b.id in s.info
    && t.evictor == s.evictor[b.id :=
         BlockMetaData(b.id, HashOf(s.cfg, b), Span(s.cfg.blockSize, ChainOf(b)), s.info[b.id].lastAccessed)]
  }

  /** The id loses one use; without uses it is no longer tracked. */
  ghost predicate OneUseLess(s: State, t: State, id: BlockId) {
    && id in s.refs && t.refs == s.refs[id := s.refs[id] - 1]
    && t.info == (if s.refs[id] > 1 then s.info else s.info[id := BlockInfo(false, false, DEFAULT_LAST_ACCESSED_TIME)])
  }

  lemma FreeCorrect(s: State, o: Obj)
    requires Inv(s) && o in s.blocks
    ensures s.blocks[o].id in s.refs && Free(s, o).Ok?
    ensures
      var t := Free(s, o).value;
      && Inv(t) && t.cfg == s.cfg && t.blocks == s.blocks - {o} && t.memory == s.memory && t.cows == s.cows
      && t.cached == s.cached && t.touched == s.touched && OneUseLess(s, t, s.blocks[o].id)
      && Available(t) == Available(s) + (if Shared(s, o) then 0 else 1)
      && (if Shared(s, o) then t.free == s.free && t.evictor == s.evictor
          else if HashOf(s.cfg, s.blocks[o]) != INVALID_HASH_VALUE then t.free == s.free && Evictable(s, t, o)
          else t.free == s.free + [s.blocks[o].id] && t.evictor == s.evictor)
  {
    var b := s.blocks[o];
    HolderUses(s, None, o);
    if Shared(s, o) {
      Unshare(s, o);
      assert Free(s, o) == Ok(Unshared(s, o));
    } else if HashOf(s.cfg, b) != INVALID_HASH_VALUE {
      Retire(s, o);
      FreeRetires(s, o);
      TotalIsSpan(s.cfg.blockSize, ChainOf(b));
    } else {
      Unbind(s, o);
      Drop(s.(blocks := s.blocks - {o}), b.id);
    }
  }

  lemma FreeRetires(s: State, o: Obj)
    requires Inv(s) && o in s.blocks && s.refs[s.blocks[o].id] == 1
    requires HashOf(s.cfg, s.blocks[o]) != INVALID_HASH_VALUE
    ensures Free(s, o) == Ok(Retired(s, o))
    ensures Available(Retired(s, o)) == Available(s) + 1
  {
    BlockFact(s, None, o);
    assert Retired(s, o).evictor.Keys == s.evictor.Keys + {s.blocks[o].id};
  }

  lemma MarkBlocksAsComputedCorrect(s: State)
    requires Inv(s)
    ensures
      var t := MarkBlocksAsComputed(s);
      && Inv(t) && t.cfg == s.cfg && t.blocks == s.blocks && t.memory == s.memory && t.cows == s.cows
      && t.touched == {} && t.info.Keys == s.info.Keys
      && (forall h :: h in t.cached ==> Reported(t, t.cached[h]))
      && forall id :: id in s.info ==>
           && t.info[id].active == s.info[id].active && t.info[id].lastAccessed == s.info[id].lastAccessed
           && (t.info[id].computed <==> s.info[id].computed || id in s.touched)
  {
    var t := MarkBlocksAsComputed(s);
    MarkCache(s);
    hide CacheOk;
    BlocksKept(s, t);
  }

  lemma MarkCache(s: State)
    requires Partitioned(s) && CacheOk(s, None)
    ensures CacheOk(MarkBlocksAsComputed(s), None)
    ensures forall h :: h in s.cached ==> Reported(MarkBlocksAsComputed(s), s.cached[h])
  {
    hide Ready, ChainHash, Span, PrefixHash;
    var t := MarkBlocksAsComputed(s);
    forall h | h in t.cached ensures EntryStays(t, t.cached[h]) && Reported(t, t.cached[h]) { EntryFact(s, None, h); }
    CacheKept(s, None, t, None);
  }

  lemma ClearCopyOnWritesCorrect(s: State)
    requires Inv(s)
    ensures Inv(ClearCopyOnWrites(s)) && Available(ClearCopyOnWrites(s)) == Available(s)
  {
    EntriesKept(s, ClearCopyOnWrites(s));
    BlocksKept(s, ClearCopyOnWrites(s));
  }

  lemma MarkBlockAsAccessedCorrect(s: State, id: BlockId, now: TimeStamp)
    requires Inv(s) && id in s.refs && s.refs[id] > 0
    ensures MarkBlockAsAccessed(s, id, now).Ok?
    ensures
      var t := MarkBlockAsAccessed(s, id, now).value;
      && Inv(t) && t.cfg == s.cfg && t.blocks == s.blocks && t.memory == s.memory && t.cows == s.cows
      && t.info.Keys == s.info.Keys && t.info[id].lastAccessed == now
      && t.info[id].computed == s.info[id].computed
      && forall k :: k in s.info && k != id ==> t.info[k] == s.info[k]
  {
    var t := MarkBlockAsAccessed(s, id, now).value;
    EntriesKept(s, t);
    BlocksKept(s, t);
  }

  /** Stamping a list of ids sets the time of these and of no others, and is refused exactly if one is not in use. */
  lemma {:induction false} MarkBlocksAsAccessedCorrect(s: State, ids: seq<BlockId>, now: TimeStamp)
    requires Inv(s)
    ensures MarkBlocksAsAccessed(s, ids, now).Ok? <==> forall k :: 0 <= k < |ids| ==> InUseId(s, ids[k])
    ensures MarkBlocksAsAccessed(s, ids, now).Err? ==> MarkBlocksAsAccessed(s, ids, now) == Err(Internal)
    ensures MarkBlocksAsAccessed(s, ids, now).Ok? ==>
      var t := MarkBlocksAsAccessed(s, ids, now).value;
      && Inv(t) && t == s.(info := t.info) && t.info.Keys == s.info.Keys
      && forall id :: id in s.info ==>
           t.info[id] == if id in ids then s.info[id].(lastAccessed := now) else s.info[id]
    decreases |ids|
  {
    hide InvHeld;
    if ids != [] {
      var n := |ids| - 1;
      MarkBlocksAsAccessedCorrect(s, ids[..n], now);
      assert ids == ids[..n] + [ids[n]];
      if MarkBlocksAsAccessed(s, ids[..n], now).Ok? {
        var t := MarkBlocksAsAccessed(s, ids[..n], now).value;
        if InUseId(t, ids[n]) {
          UsedIfActive(t, ids[n]);
          MarkBlockAsAccessedCorrect(t, ids[n], now);
        }
      }
    }
  }

  /** The id is held by some object. */
  ghost predicate InUseId(s: State, id: BlockId) {
    id in s.info && s.info[id].active
  }

  lemma UsedIfActive(s: State, id: BlockId)
    requires Inv(s) && InUseId(s, id)
    ensures id in s.refs && s.refs[id] > 0 && Holders(s.blocks, id) != {}
  {
  }

  /** The blocks after forking `sources` into `copies`. */
  ghost function WithCopies(m: map<Obj, Block>, sources: seq<Obj>, copies: seq<Obj>): map<Obj, Block>
    requires |sources| == |copies|
    decreases |sources|
  {
    if sources == [] then m
    else if sources[0] !in m then m
    else WithCopies(m[copies[0] := m[sources[0]]], sources[1..], copies[1..])
  }

  /** Forking live blocks into fresh objects needs no id and cannot fail. */
  lemma {:induction false} ForkBlocksCorrect(s: State, sources: seq<Obj>, copies: seq<Obj>)
    requires Inv(s) && |sources| == |copies|
    requires forall k :: 0 <= k < |sources| ==> sources[k] in s.blocks && copies[k] !in s.blocks
    requires forall j, k :: 0 <= j < k < |copies| ==> copies[j] != copies[k]
    ensures ForkBlocks(s, sources, copies).Ok?
    ensures
      var t := ForkBlocks(s, sources, copies).value;
      Inv(t) && t.cfg == s.cfg && t.memory == s.memory && t.cows == s.cows && Available(t) == Available(s)
      && t.blocks == WithCopies(s.blocks, sources, copies)
    decreases |sources|
  {
    if sources != [] {
      Copy(s, sources[0], copies[0]);
      ForkBlocksCorrect(Copied(s, sources[0], copies[0]), sources[1..], copies[1..]);
    }
  }

  /** An unhashed block nobody shares stays unshared while other objects are placed or appended to. */
  lemma StaysAlone(s: State, t: State, o: Obj, b: Block, p: Obj)
    requires Inv(s) && Inv(t) && Places(s, t, o, b) && p in s.blocks && p != o
    requires HashOf(s.cfg, s.blocks[p]) == INVALID_HASH_VALUE && Alone(s, p)
    requires HashOf(s.cfg, b) == INVALID_HASH_VALUE ==> Alone(t, o)
    ensures Alone(t, p)
  {
    var id := s.blocks[p].id;
    assert p in Holders(s.blocks, id) && |Holders(s.blocks, id)| == 1;
    assert |Holders(s.blocks, id) - {p}| == 0;
    assert Holders(t.blocks, id) - {o} <= {p} by {
      forall q | q in Holders(t.blocks, id) - {o} ensures q == p {
        assert q in Holders(s.blocks, id);
        assert q !in Holders(s.blocks, id) - {p};
      }
    }
    if t.blocks[o].id == id {
      BlockFact(t, None, o);
    } else {
      assert Holders(t.blocks, id) == {p} by { assert p in Holders(t.blocks, id); }
    }
  }
}
