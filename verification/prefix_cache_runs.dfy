/** Whole runs of the prefix-caching allocator, compared with one that shares nothing. */
module PrefixCacheRuns {
  import opened Basics
  import opened PrefixChain
  import opened PrefixCacheSpec
  import opened PrefixCacheSteps
  import opened PrefixCacheOperations

  datatype Op =
    | OpAllocateMutable(o: Obj, before: Chain, ts: seq<TokenId>, extra: HashValue, pick: BlockId)
    | OpAllocateImmutable(o: Obj, before: Chain, ts: seq<TokenId>, extra: HashValue, pick: BlockId)
    | OpAppend(o: Obj, before: Chain, ts: seq<TokenId>, pick: BlockId)
    | OpReplace(o: Obj, before: Chain, i: nat, token: TokenId)
    | OpFork(o: Obj, copy: Obj)
    | OpFree(o: Obj)
    | OpMarkComputed
    | OpMarkAccessed(id: BlockId, now: TimeStamp)
    | OpClearCopies

  ghost function Initial(cfg: Config): State {
    State(cfg, IdsFrom(cfg.begin, cfg.num), map id | id in IdsFrom(cfg.begin, cfg.num) :: 0, map[], {}, map[],
          map id | id in IdsFrom(cfg.begin, cfg.num) ::
            BlockInfo(false, false, DEFAULT_LAST_ACCESSED_TIME), [], map[], map[])
  }

  ghost function Apply(s: State, op: Op): Result<State> {
    match op
    case OpAllocateMutable(o, before, ts, extra, pick) => AllocateMutableBlock(s, o, before, ts, extra, pick)
    case OpAllocateImmutable(o, before, ts, extra, pick) => AllocateImmutableBlock(s, o, before, ts, extra, pick)
    case OpAppend(o, before, ts, pick) => AppendTokenIds(s, o, before, ts, pick)
    case OpReplace(o, before, i, token) => ReplaceToken(s, o, before, i, token)
    case OpFork(o, copy) => ForkBlock(s, o, copy)
    case OpFree(o) => Free(s, o)
    case OpMarkComputed => Ok(MarkBlocksAsComputed(s))
    case OpMarkAccessed(id, now) => MarkBlockAsAccessed(s, id, now)
    case OpClearCopies => Ok(ClearCopyOnWrites(s))
  }

  /** What the callers of the allocator guarantee. */
  ghost predicate Legal(s: State, op: Op) {
    match op
    case OpAllocateMutable(o, before, ts, extra, _) => MayPlace(s, o, before, ts, extra)
    case OpAllocateImmutable(o, before, ts, extra, _) => MayPlace(s, o, before, ts, extra)
    case OpAppend(o, before, ts, _) => MayAppend(s, o, before, ts)
    case OpReplace(o, before, i, token) => MayReplace(s, o, before, i, token)
    case OpFork(o, copy) => o in s.blocks && copy !in s.blocks
    case OpFree(o) => o in s.blocks
    case OpMarkComputed => true
    case OpMarkAccessed(id, _) => id in s.refs && s.refs[id] > 0
    case OpClearCopies => true
  }

  ghost function Run(s: State, ops: seq<Op>): Result<State>
    decreases |ops|
  {
    if ops == [] then Ok(s)
    else
      var t :- Apply(s, ops[0]);
      Run(t, ops[1..])
  }

  ghost predicate LegalRun(s: State, ops: seq<Op>)
    decreases |ops|
  {
    ops != [] ==> Legal(s, ops[0]) && (Apply(s, ops[0]).Ok? ==> LegalRun(Apply(s, ops[0]).value, ops[1..]))
  }

  // ---------- an allocator without ids, hashes or sharing: every object keeps its own tokens ----------

  /** A block's content with its id struck out. */
  function Bare(b: Block): Block {
    b.(id := 0)
  }

  function Bares(m: map<Obj, Block>): map<Obj, Block> {
    map o | o in m :: Bare(m[o])
  }

  ghost function PlainApply(m: map<Obj, Block>, op: Op): map<Obj, Block> {
    match op
    case OpAllocateMutable(o, before, ts, extra, _) => m[o := Block(before, ts, extra, 0)]
    case OpAllocateImmutable(o, before, ts, extra, _) => m[o := Block(before, ts, extra, 0)]
    case OpAppend(o, before, ts, _) => if o in m then m[o := Appended(m[o], before, ts)] else m
    case OpReplace(o, before, i, token) =>
      if o in m && i < |m[o].tokens| then m[o := Replaced(m[o], before, i, token)] else m
    case OpFork(o, copy) => if o in m then m[copy := m[o]] else m
    case OpFree(o) => m - {o}
    case OpMarkComputed => m
    case OpMarkAccessed(_, _) => m
    case OpClearCopies => m
  }

  ghost function PlainRun(m: map<Obj, Block>, ops: seq<Op>): map<Obj, Block>
    decreases |ops|
  {
    if ops == [] then m else PlainRun(PlainApply(m, ops[0]), ops[1..])
  }

  lemma InitialInv(cfg: Config)
    requires cfg.blockSize > 0
    ensures Inv(Initial(cfg)) && Available(Initial(cfg)) == cfg.num
  {
    var s := Initial(cfg);
    forall id | InRange(cfg, id) ensures id in s.free { assert IdsFrom(cfg.begin, cfg.num)[id - cfg.begin] == id; }
    forall id | id in s.refs ensures Holders(s.blocks, id) == {} {}
  }

  lemma BaresPut(m: map<Obj, Block>, o: Obj, b: Block)
    ensures Bares(m[o := b]) == Bares(m)[o := Bare(b)]
  {
  }

  lemma BaresDrop(m: map<Obj, Block>, o: Obj)
    ensures Bares(m - {o}) == Bares(m) - {o}
  {
  }

  /** Every legal operation keeps the invariant and does to the contents what it would do without
      any sharing; none of the allocator's own checks fires, and only exhaustion can stop it. */
  lemma ApplyCorrect(s: State, op: Op)
    requires CollisionFree(s.cfg.mix) && Inv(s) && Legal(s, op)
    ensures
      match Apply(s, op)
      case Err(e) => e == Exhausted && Available(s) == 0
      case Ok(t) => Inv(t) && t.cfg == s.cfg && Bares(t.blocks) == PlainApply(Bares(s.blocks), op)
  {
    hide InvHeld, CollisionFree, WellFormed, AllocateMutableBlock, AllocateImmutableBlock, AppendTokenIds,
      ReplaceToken, ForkBlock, Free;
    match op
    case OpAllocateMutable(o, before, ts, extra, pick) =>
      AllocateMutableBlockCorrect(s, o, before, ts, extra, pick);
      if Apply(s, op).Ok? { BaresPut(s.blocks, o, Apply(s, op).value.blocks[o]); }
    case OpAllocateImmutable(o, before, ts, extra, pick) =>
      AllocateImmutableBlockCorrect(s, o, before, ts, extra, pick);
      if Apply(s, op).Ok? { BaresPut(s.blocks, o, Apply(s, op).value.blocks[o]); }
    case OpAppend(o, before, ts, pick) =>
      AppendTokenIdsCorrect(s, o, before, ts, pick);
      if Apply(s, op).Ok? { BaresPut(s.blocks, o, Apply(s, op).value.blocks[o]); }
    case OpReplace(o, before, i, token) =>
      ReplaceTokenCorrect(s, o, before, i, token);
      BaresPut(s.blocks, o, Apply(s, op).value.blocks[o]);
    case OpFork(o, copy) =>
      Copy(s, o, copy);
      BaresPut(s.blocks, copy, s.blocks[o]);
    case OpFree(o) =>
      FreeCorrect(s, o);
      BaresDrop(s.blocks, o);
    case OpMarkComputed =>
      MarkBlocksAsComputedCorrect(s);
    case OpMarkAccessed(id, now) =>
      MarkBlockAsAccessedCorrect(s, id, now);
    case OpClearCopies =>
      ClearCopyOnWritesCorrect(s);
  }

  lemma {:induction false} RunCorrect(s: State, ops: seq<Op>)
    requires CollisionFree(s.cfg.mix) && Inv(s) && LegalRun(s, ops)
    ensures
      match Run(s, ops)
      case Err(e) => e == Exhausted
      case Ok(t) => Inv(t) && t.cfg == s.cfg && Bares(t.blocks) == PlainRun(Bares(s.blocks), ops)
    decreases |ops|
  {
    if ops != [] {
      ApplyCorrect(s, ops[0]);
      if Apply(s, ops[0]).Ok? { RunCorrect(Apply(s, ops[0]).value, ops[1..]); }
    }
  }

  /** Cache transparency: after any legal run, every live block is the block the sharing-free allocator
      would have, and the device holds exactly its known tokens, in the context of its whole prefix,
      under the id through which it is read. */
  lemma CacheTransparent(cfg: Config, ops: seq<Op>)
    requires cfg.blockSize > 0 && CollisionFree(cfg.mix) && LegalRun(Initial(cfg), ops)
    ensures
      match Run(Initial(cfg), ops)
      case Err(e) => e == Exhausted
      case Ok(t) =>
        var plain := PlainRun(map[], ops);
        && t.blocks.Keys == plain.Keys
        && (forall o :: o in plain ==> Bare(t.blocks[o]) == plain[o])
        && (forall o :: o in plain && Known(plain[o].tokens) != [] ==>
              t.blocks[o].id in t.memory
              && t.memory[t.blocks[o].id] == Link(plain[o].before, Known(plain[o].tokens), plain[o].extra))
  {
    InitialInv(cfg);
    assert Bares(map[]) == map[];
    RunCorrect(Initial(cfg), ops);
    var r := Run(Initial(cfg), ops);
    if r.Ok? {
      var t := r.value;
      var plain := PlainRun(map[], ops);
      assert Bares(t.blocks) == plain;
      assert t.blocks.Keys == Bares(t.blocks).Keys;
      forall o | o in plain
        ensures Bare(t.blocks[o]) == plain[o]
        ensures Known(plain[o].tokens) != [] ==>
          t.blocks[o].id in t.memory
          && t.memory[t.blocks[o].id] == Link(plain[o].before, Known(plain[o].tokens), plain[o].extra)
      {
        BlockFact(t, None, o);
      }
    }
  }

  /** In every reachable state each id is in exactly one of the free deque, the evictor and use; its
      count is the number of objects holding it; it is active exactly while in use. */
  lemma IdsPartitioned(cfg: Config, ops: seq<Op>, id: BlockId)
    requires cfg.blockSize > 0 && CollisionFree(cfg.mix) && LegalRun(Initial(cfg), ops)
    requires Run(Initial(cfg), ops).Ok? && InRange(cfg, id)
    ensures
      var t := Run(Initial(cfg), ops).value;
      && id in t.refs && id in t.info && NoDup(t.free)
      && t.refs[id] == |Holders(t.blocks, id)|
      && (t.info[id].active <==> t.refs[id] > 0)
      && (id in t.free <==> id !in t.evictor && t.refs[id] == 0)
      && (id in t.evictor <==> id !in t.free && t.refs[id] == 0)
  {
    InitialInv(cfg);
    RunCorrect(Initial(cfg), ops);
  }

  ghost predicate Shareable(s: State, o: Obj)
    requires o in s.blocks
  {
    Ready(s.cfg.blockSize, ChainOf(s.blocks[o]))
  }

  /** Cache entries are injective and lead to ids in use or in the evictor, evictor entries map back, a
      hashed block sits on the id cached for its hash, and two shareable blocks share an id exactly when
      their whole prefixes are equal. */
  lemma IdsCanonical(cfg: Config, ops: seq<Op>)
    requires cfg.blockSize > 0 && CollisionFree(cfg.mix) && LegalRun(Initial(cfg), ops)
    requires Run(Initial(cfg), ops).Ok?
    ensures
      var t := Run(Initial(cfg), ops).value;
      && (forall h, h' :: h in t.cached && h' in t.cached && t.cached[h] == t.cached[h'] ==> h == h')
      && (forall h :: h in t.cached ==>
            t.cached[h] in t.refs && (t.refs[t.cached[h]] > 0 <==> t.cached[h] !in t.evictor))
      && (forall id :: id in t.evictor ==>
            t.evictor[id].prefixHash in t.cached && t.cached[t.evictor[id].prefixHash] == id)
      && (forall o :: o in t.blocks && HashOf(t.cfg, t.blocks[o]) != INVALID_HASH_VALUE ==>
            HashOf(t.cfg, t.blocks[o]) in t.cached && t.cached[HashOf(t.cfg, t.blocks[o])] == t.blocks[o].id)
      && (forall o, p | o in t.blocks && p in t.blocks && Shareable(t, o) && Shareable(t, p) ::
            t.blocks[o].id == t.blocks[p].id <==> ChainOf(t.blocks[o]) == ChainOf(t.blocks[p]))
  {
    InitialInv(cfg);
    RunCorrect(Initial(cfg), ops);
    var t := Run(Initial(cfg), ops).value;
    forall h, h' | h in t.cached && h' in t.cached && t.cached[h] == t.cached[h'] ensures h == h' {
      EntryFact(t, None, h);
      EntryFact(t, None, h');
    }
    forall h | h in t.cached
      ensures t.cached[h] in t.refs && (t.refs[t.cached[h]] > 0 <==> t.cached[h] !in t.evictor)
    {
      EntryFact(t, None, h);
    }
    forall o | o in t.blocks && HashOf(t.cfg, t.blocks[o]) != INVALID_HASH_VALUE
      ensures HashOf(t.cfg, t.blocks[o]) in t.cached && t.cached[HashOf(t.cfg, t.blocks[o])] == t.blocks[o].id
    {
      BlockFact(t, None, o);
    }
    forall o, p | o in t.blocks && p in t.blocks && Shareable(t, o) && Shareable(t, p)
      ensures t.blocks[o].id == t.blocks[p].id <==> ChainOf(t.blocks[o]) == ChainOf(t.blocks[p])
    {
      SameIdSameChain(t, o, p);
    }
  }

  lemma SameIdSameChain(t: State, o: Obj, p: Obj)
    requires CollisionFree(t.cfg.mix) && Inv(t) && o in t.blocks && p in t.blocks
    requires Shareable(t, o) && Shareable(t, p)
    ensures t.blocks[o].id == t.blocks[p].id <==> ChainOf(t.blocks[o]) == ChainOf(t.blocks[p])
  {
    BlockFact(t, None, o);
    BlockFact(t, None, p);
    KnownWhole(t.cfg, t.blocks[o]);
    KnownWhole(t.cfg, t.blocks[p]);
    ReadyHashNonZero(t.cfg, ChainOf(t.blocks[o]));
  }

  lemma ReadyHashNonZero(cfg: Config, c: Chain)
    requires CollisionFree(cfg.mix) && Ready(cfg.blockSize, c)
    ensures PrefixHash(cfg.mix, cfg.blockSize, c) != INVALID_HASH_VALUE
  {
    assert ChainHash(cfg.mix, c) == cfg.mix(ChainHash(cfg.mix, c.before), c.tokens, c.extra);
  }

  // ---------- single runs ----------

  /** A device of one block of two tokens. */
  function OneBlock(mix: Mixer): Config {
    Config(0, 1, 2, mix)
  }

  lemma RunStep(s: State, op: Op, t: State, rest: seq<Op>)
    requires Legal(s, op) && Apply(s, op) == Ok(t)
    ensures LegalRun(s, [op] + rest) <==> LegalRun(t, rest)
    ensures Run(s, [op] + rest) == Run(t, rest)
  {
    hide Legal, Apply;
    assert ([op] + rest)[1..] == rest;
  }

  lemma {:induction false} RunApart(s: State, ops: seq<Op>, t: State, rest: seq<Op>)
    requires LegalRun(s, ops) && Run(s, ops) == Ok(t)
    ensures LegalRun(s, ops + rest) <==> LegalRun(t, rest)
    ensures Run(s, ops + rest) == Run(t, rest)
    decreases |ops|
  {
    hide Legal, Apply;
    if ops == [] {
      assert ops + rest == rest;
    } else {
      assert (ops + rest)[1..] == ops[1..] + rest;
      RunApart(Apply(s, ops[0]).value, ops[1..], t, rest);
    }
  }

  lemma RunTwo(s: State, a: Op, t: State, b: Op, u: State)
    requires Legal(s, a) && Apply(s, a) == Ok(t) && Legal(t, b) && Apply(t, b) == Ok(u)
    ensures LegalRun(s, [a, b]) && Run(s, [a, b]) == Ok(u)
  {
    hide Legal, Apply;
    RunStep(t, b, u, []);
    RunStep(s, a, t, [b]);
    assert [b] + [] == [b] && [a] + [b] == [a, b];
  }

  lemma SoleAlone(t: State, o: Obj)
    requires Inv(t) && o in t.blocks && t.blocks.Keys == {o}
    ensures Alone(t, o)
  {
    assert Holders(t.blocks, t.blocks[o].id) == {o};
  }
}
