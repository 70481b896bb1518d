/** ResetPrefixCache: when it goes through, and what it leaves behind. */
module CacheReset {
  import opened Basics
  import opened PrefixChain
  import opened LruEvictor
  import opened PrefixCacheSpec
  import opened PrefixCacheSteps
  import opened PrefixCacheOperations
  import opened PrefixCacheRuns
  import opened ComputedFlag
  import opened RankAdmission

  /** Refused while ids are in use. Otherwise free deque, counts, copies and evictor start afresh; cache entries,
      touched ids and block attributes stay. */
  ghost function ResetPrefixCache(s: State): (bool, State) {
    if s.cfg.num - Available(s) > 0 then (false, s)
    else
      (true, s.(free := IdsFrom(s.cfg.begin, s.cfg.num), refs := map id | id in IdsFrom(s.cfg.begin, s.cfg.num) :: 0,
                cows := [], evictor := map[]))
  }

  lemma {:induction false} RangeSize(ids: set<BlockId>, begin: BlockId, num: nat)
    requires forall id :: id in ids <==> begin <= id < begin + num
    ensures |ids| == num
    decreases num
  {
    if num == 0 {
      assert forall id :: id in ids ==> false;
      assert ids == {};
    } else {
      RangeSize(ids - {begin + num - 1}, begin, num - 1);
    }
  }

  lemma ProperSubsetSize(a: set<BlockId>, b: set<BlockId>)
    requires a <= b
    ensures |a| <= |b| && (|a| == |b| ==> a == b)
  {
    assert b == a + (b - a);
    if |a| == |b| { assert |b - a| == 0; }
  }

  /** It goes through exactly if no object holds an id. */
  lemma ResetWhenIdle(s: State)
    requires Inv(s)
    ensures ResetPrefixCache(s).0 <==> s.blocks == map[]
  {
    hide InvHeld, Available;
    var left := Elements(s.free) + s.evictor.Keys;
    CandidatesApart(s);
    QueueSize(s.free);
    DisjointUnion(Elements(s.free), s.evictor.Keys);
    IdsInRange(s);
    RangeSize(s.refs.Keys, s.cfg.begin, s.cfg.num);
    LeftUnused(s);
    ProperSubsetSize(left, s.refs.Keys);
    if s.blocks == map[] {
      assert left == s.refs.Keys;
    } else {
      var o := AnyOf(s.blocks.Keys);
      UsesOf(s, o);
      assert s.blocks[o].id !in left;
    }
  }

  lemma IdsInRange(s: State)
    requires Inv(s)
    ensures forall id :: id in s.refs <==> s.cfg.begin <= id < s.cfg.begin + s.cfg.num
  {
  }

  /** The ids left are those nobody uses. */
  lemma LeftUnused(s: State)
    requires Inv(s)
    ensures forall id :: id in s.refs ==> (s.refs[id] == 0 <==> id in Elements(s.free) + s.evictor.Keys)
    ensures Elements(s.free) + s.evictor.Keys <= s.refs.Keys
    ensures s.blocks == map[] ==> forall id :: id in s.refs ==> s.refs[id] == 0
  {
    forall id | id in Elements(s.free) + s.evictor.Keys ensures id in s.refs {
      assert id in s.free || id in s.evictor;
    }
    if s.blocks == map[] {
      forall id | id in s.refs ensures s.refs[id] == 0 { assert Holders(s.blocks, id) == {}; }
    }
  }

  /** What it leaves behind is in order exactly if nothing was cached. */
  lemma ResetExact(s: State)
    requires Inv(s) && s.blocks == map[]
    ensures Inv(ResetPrefixCache(s).1) <==> s.cached == map[]
  {
    var t := ResetPrefixCache(s).1;
    ResetWhenIdle(s);
    if s.cached == map[] {
      ResetSound(s);
    } else {
      var h := AnyOf(s.cached.Keys);
      if Inv(t) { EntryFact(t, None, h); }
    }
  }

  lemma ResetSound(s: State)
    requires Inv(s) && s.blocks == map[] && s.cached == map[] && ResetPrefixCache(s).0
    ensures Inv(ResetPrefixCache(s).1)
  {
    hide InvHeld, IdsFrom, InRange, ResetPrefixCache;
    ResetFields(s);
    Idle(s);
    FreshSound(ResetPrefixCache(s).1);
  }

  lemma ResetFields(s: State)
    requires ResetPrefixCache(s).0
    ensures
      var t, ids := ResetPrefixCache(s).1, IdsFrom(s.cfg.begin, s.cfg.num);
      && t.cfg == s.cfg && t.free == ids && t.evictor == map[] && t.cows == [] && t.cached == s.cached
      && t.touched == s.touched && t.info == s.info && t.blocks == s.blocks && t.memory == s.memory
      && NoDup(ids) && (forall id :: id in ids <==> InRange(s.cfg, id))
      && (forall id :: id in t.refs <==> id in ids) && (forall id :: id in t.refs ==> t.refs[id] == 0)
  {
    AllIds(s.cfg);
  }

  /** Without objects no id is active. */
  lemma Idle(s: State)
    requires Inv(s) && s.blocks == map[]
    ensures s.cfg.blockSize > 0 && s.touched <= s.info.Keys
    ensures forall id :: id in s.info <==> InRange(s.cfg, id)
    ensures forall id :: id in s.info ==> !s.info[id].active
  {
    LeftUnused(s);
  }

  /** A state with all ids free, nothing cached and nothing active is in order. */
  lemma FreshSound(t: State)
    requires t.cfg.blockSize > 0 && t.blocks == map[] && t.cached == map[] && t.evictor == map[]
    requires NoDup(t.free) && (forall id :: id in t.free <==> InRange(t.cfg, id))
    requires (forall id :: id in t.refs <==> id in t.free) && forall id :: id in t.refs ==> t.refs[id] == 0
    requires t.touched <= t.info.Keys && (forall id :: id in t.info <==> InRange(t.cfg, id))
    requires forall id :: id in t.info ==> !t.info[id].active
    ensures Inv(t)
  {
    hide InRange;
    forall id ensures id in t.info <==> id in t.refs { assert id in t.free <==> InRange(t.cfg, id); }
    assert t.info.Keys == t.refs.Keys;
    forall id | id in t.refs ensures Holders(t.blocks, id) == {} {}
  }

  lemma AllIds(cfg: Config)
    ensures NoDup(IdsFrom(cfg.begin, cfg.num)) && forall id :: id in IdsFrom(cfg.begin, cfg.num) <==> InRange(cfg, id)
  {
    forall id | InRange(cfg, id) ensures id in IdsFrom(cfg.begin, cfg.num) {
      assert IdsFrom(cfg.begin, cfg.num)[id - cfg.begin] == id;
    }
  }

  /** Otherwise prompts can be served the wrong content: a prompt is allocated, freed, and the cache reset. Another
      prompt then takes its id, whose old entry is still there, and the first prompt, back again, reads the other's
      tokens. */
  lemma ResetServesWrong(mix: Mixer)
    requires CollisionFree(mix)
    ensures
      var s := Initial(OneBlock(mix));
      var ops := [OpAllocateMutable(0, Root, [5, 6], 0, 0), OpFree(0)];
      && LegalRun(s, ops) && Run(s, ops).Ok?
      && var (done, u) := ResetPrefixCache(Run(s, ops).value);
      && done && WrongAfter(u)
  {
    hide InvHeld, CollisionFree, Apply, Legal, WrongAfter;
    var s := Initial(OneBlock(mix));
    var f := FilledOnce(mix);
    var r := FreedOnce(f);
    RunTwo(s, OpAllocateMutable(0, Root, [5, 6], 0, 0), f, OpFree(0), r);
    ResetWhenIdle(r);
    KeyOfOnly(mix, f, r);
    AfterReset(mix, ResetPrefixCache(r).1);
  }

  /** The next two prompts share an id, on which the second finds what is not its own. */
  ghost predicate WrongAfter(u: State) {
    var other, again := OpAllocateMutable(1, Root, [7, 8], 0, 0), OpAllocateImmutable(2, Root, [5, 6], 0, 0);
    && Legal(u, other) && Apply(u, other).Ok?
    && var t := Apply(u, other).value;
    && Legal(t, again) && Apply(t, again).Ok?
    && var w := Apply(t, again).value;
    && 1 in w.blocks && 2 in w.blocks && w.blocks[1].id == w.blocks[2].id && w.blocks[2].id in w.memory
    && w.memory[w.blocks[2].id] == Content(w.blocks[1]) != Content(w.blocks[2])
  }

  /** The entry the freed block has left. */
  lemma KeyOfOnly(mix: Mixer, f: State, r: State)
    requires Inv(f) && f.cfg == OneBlock(mix) && f.blocks == map[0 := Block(Root, [5, 6], 0, 0)]
    requires HashOf(f.cfg, f.blocks[0]) != INVALID_HASH_VALUE && f.cached == map[HashOf(f.cfg, f.blocks[0]) := 0]
    requires Alone(f, 0) && Apply(f, OpFree(0)) == Ok(r) && Inv(r) && r.blocks == map[] && r.evictor.Keys == {0}
    ensures r.cfg == f.cfg && r.cached == f.cached && 0 in r.info && !r.info[0].active
  {
    hide InvHeld, HashOf;
    FreeCorrect(f, 0);
    LeftUnused(r);
    InactiveAt(r, 0);
  }

  lemma InactiveAt(s: State, id: BlockId)
    requires Inv(s) && id in s.evictor
    ensures id in s.info && !s.info[id].active
  {
  }

  lemma AfterReset(mix: Mixer, u: State)
    requires CollisionFree(mix) && u.cfg == OneBlock(mix) && u.blocks == map[]
    requires u.free == [0] && u.refs == map[0 := 0] && u.evictor == map[] && 0 in u.info && !u.info[0].active
    requires u.cached == map[HashOf(u.cfg, Block(Root, [5, 6], 0, 0)) := 0]
    ensures WrongAfter(u)
  {
    hide AppendTokenIds, Settle, CollisionFree, PrefixHash, WriteBack;
    var b, c := Block(Root, [7, 8], 0, 0), Block(Root, [5, 6], 0, 0);
    TwoPrompts(mix);
    var taken := TakenFree(u);
    assert AllocateBlockId(u, 0) == Ok((0, taken));
    FirstAppend(taken, 1, b, 0);
    SettleBinds(taken, 1, b, 0);
    var t := Bound(taken, 1, b);
    assert Apply(u, OpAllocateMutable(1, Root, [7, 8], 0, 0)) == Ok(t);
    assert t.cached[HashOf(u.cfg, c)] == 0;
    var w := Apply(t, OpAllocateImmutable(2, Root, [5, 6], 0, 0)).value;
    assert w.blocks == map[1 := b, 2 := c] && w.memory == t.memory;
  }

  lemma TwoPrompts(mix: Mixer)
    requires CollisionFree(mix)
    ensures
      var b, c := Block(Root, [7, 8], 0, 0), Block(Root, [5, 6], 0, 0);
      && HashOf(OneBlock(mix), b) != HashOf(OneBlock(mix), c)
      && HashOf(OneBlock(mix), b) != INVALID_HASH_VALUE && HashOf(OneBlock(mix), c) != INVALID_HASH_VALUE
      && WellFormed(OneBlock(mix), b) && WellFormed(OneBlock(mix), c)
      && Content(b) == ChainOf(b) && Content(c) == ChainOf(c) && ChainOf(b) != ChainOf(c)
  {
    var b, c := Block(Root, [7, 8], 0, 0), Block(Root, [5, 6], 0, 0);
    ReadyTwo(mix, b);
    ReadyTwo(mix, c);
    KnownWhole(OneBlock(mix), b);
    KnownWhole(OneBlock(mix), c);
    assert b.tokens[0] != c.tokens[0];
  }
}
