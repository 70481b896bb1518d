/** The prefix-caching allocator as transitions on a value. */
module PrefixCacheSpec {
  import opened Basics
  import opened PrefixChain
  import opened LruEvictor

  datatype Config = Config(begin: BlockId, num: nat, blockSize: nat, mix: Mixer)

  datatype BlockInfo = BlockInfo(active: bool, computed: bool, lastAccessed: TimeStamp)

  /** A live block object. `before` is what its prevBlock_ pointer leads to. */
  datatype Block = Block(before: Chain, tokens: seq<TokenId>, extra: HashValue, id: BlockId)

  datatype State = State(
    cfg: Config,
    free: seq<BlockId>,
    refs: map<BlockId, int>,
    cached: map<HashValue, BlockId>,
    touched: set<BlockId>,
    evictor: map<BlockId, BlockMetaData>,
    info: map<BlockId, BlockInfo>,
    cows: seq<(BlockId, BlockId)>,
    blocks: map<Obj, Block>,          // objects currently holding an id
    memory: map<BlockId, Chain>)    // what the device keeps under each id

  function ChainOf(b: Block): Chain {
    Link(b.before, b.tokens, b.extra)
  }

  function HashOf(cfg: Config, b: Block): HashValue {
    PrefixHash(cfg.mix, cfg.blockSize, ChainOf(b))
  }

  /** What the device must hold for `b`: its computed tokens in the context of its prefix. */
  function Content(b: Block): Chain {
    Link(b.before, Known(b.tokens), b.extra)
  }

  predicate InRange(cfg: Config, id: BlockId) {
    cfg.begin <= id < cfg.begin + cfg.num
  }

  // ---------- the allocator's steps, in the source's order ----------

  ghost function Increase(s: State, id: BlockId): Result<State> {
    if id !in s.refs || s.refs[id] < 0 then Err(Internal)
    else Ok(s.(refs := s.refs[id := s.refs[id] + 1]))
  }

  ghost function Decrease(s: State, id: BlockId): Result<State> {
    if id !in s.refs || s.refs[id] <= 0 then Err(Internal)
    else Ok(s.(refs := s.refs[id := s.refs[id] - 1]))
  }

  ghost function Track(s: State, id: BlockId, computed: bool): Result<State> {
    if id !in s.info || s.info[id].active then Err(Internal)
    else Ok(s.(info := s.info[id := BlockInfo(true, computed, DEFAULT_LAST_ACCESSED_TIME)]))
  }

  ghost function Untrack(s: State, id: BlockId): Result<State> {
    if id !in s.info || !s.info[id].active then Err(Internal)
    else Ok(s.(info := s.info[id := BlockInfo(false, false, DEFAULT_LAST_ACCESSED_TIME)]))
  }

  /** The candidate the evictor yields: `pick` whenever that is a candidate. */
  ghost function Victim(evictor: map<BlockId, BlockMetaData>, pick: BlockId): (id: BlockId)
    requires evictor.Keys != {}
    ensures id in evictor
    ensures pick in evictor ==> id == pick
  {
    if pick in evictor then pick else AnyOf(evictor.Keys)
  }

  /** An id the evictor has given up loses its cache entry and is in use again. */
  ghost function TakeEvictedId(s: State, key: HashValue, id: BlockId): Result<State> {
    if key !in s.cached || s.cached[key] != id || !InRange(s.cfg, id) then Err(Internal)
    else
      var s1 :- Increase(s.(cached := s.cached - {key}), id);
      Track(s1, id, false)
  }

  ghost function AllocateEvictedBlockId(s: State, pick: BlockId): Result<(BlockId, State)> {
    if s.evictor.Keys == {} then Err(Exhausted)
    else
      var id := Victim(s.evictor, pick);
      var t :- TakeEvictedId(s.(evictor := s.evictor - {id}), s.evictor[id].prefixHash, id);
      Ok((id, t))
  }

  ghost function AllocateBlockId(s: State, pick: BlockId): Result<(BlockId, State)> {
    if s.free != [] then
      var s1 :- Increase(s.(free := s.free[1..]), s.free[0]);
      var s2 :- Track(s1, s.free[0], false);
      Ok((s.free[0], s2))
    else AllocateEvictedBlockId(s, pick)
  }

  /** One use less of `id`; without users it returns to the free deque. */
  ghost function ReleaseId(s: State, id: BlockId): Result<State> {
    var s1 :- Decrease(s, id);
    if s1.refs[id] == 0 then
      var s2 :- Untrack(s1, id);
      Ok(s2.(free := s2.free + [id]))
    else Ok(s1)
  }

  /** One use more of a cached id, reviving it from the evictor if needed. */
  ghost function IncrRefCountCacheBlock(s: State, id: BlockId): Result<State> {
    var s1 :- Increase(s, id);
    if s1.refs[id] == 1 then Track(s1.(evictor := s1.evictor - {id}), id, true) else Ok(s1)
  }

  ghost function DecrRefCountCacheBlock(s: State, b: Block): Result<State> {
    DecrUnder(s, b, HashOf(s.cfg, b))
  }

  /** The block is looked up under the hash `h`. */
  ghost function DecrUnder(s: State, b: Block, h: HashValue): Result<State> {
    var s1 :- Decrease(s, b.id);
    if s1.refs[b.id] == 0 then
      if h !in s.cached || s.cached[h] != b.id || b.id !in s.info then Err(Internal)
      else Untrack(s1.(evictor := s1.evictor[b.id :=
          BlockMetaData(b.id, h, TotalTokens(ChainOf(b)), s.info[b.id].lastAccessed)]), b.id)
    else Ok(s1)
  }

  /** The object gives up its id. */
  ghost function FreeBlockId(s: State, o: Obj): Result<State>
    requires o in s.blocks
  {
    FreeUnder(s, o, HashOf(s.cfg, s.blocks[o]))
  }

  ghost function FreeUnder(s: State, o: Obj, h: HashValue): Result<State>
    requires o in s.blocks
  {
    var b := s.blocks[o];
    var s0 := s.(blocks := s.blocks - {o});
    if h != INVALID_HASH_VALUE then DecrUnder(s0, b, h) else ReleaseId(s0, b.id)
  }

  /** What the device keeps once it has carried out a recorded copy. */
  ghost function CarriedOut(memory: map<BlockId, Chain>, pair: (BlockId, BlockId)): map<BlockId, Chain> {
    if pair.0 in memory then memory[pair.1 := memory[pair.0]] else memory
  }

  /** Records a copy; the device carries it out. */
  ghost function Recorded(s: State, pair: (BlockId, BlockId)): State {
    s.(cows := s.cows + [pair], memory := CarriedOut(s.memory, pair))
  }

  ghost function CowBlockIfNotAppendable(s: State, o: Obj, pick: BlockId): Result<State>
    requires o in s.blocks
  {
    var b := s.blocks[o];
    if b.id !in s.refs then Err(Internal)
    else if s.refs[b.id] <= 1 then Ok(s)
    else
      var s1 :- FreeBlockId(s, o);
      var r :- AllocateBlockId(s1, pick);
      Ok(Recorded(r.1, (b.id, r.0)).(blocks := r.1.blocks[o := b.(id := r.0)]))
  }

  /** A block that just became full and placeholder-free joins or founds its cache entry. */
  ghost function PromoteToImmutableBlock(s: State, o: Obj): Result<State>
    requires o in s.blocks
  {
    var b := s.blocks[o];
    var h := HashOf(s.cfg, b);
    if h !in s.cached then Ok(s.(cached := s.cached[h := b.id], touched := s.touched + {b.id}))
    else
      var s1 :- ReleaseId(s, b.id);
      IncrRefCountCacheBlock(s1.(blocks := s1.blocks[o := b.(id := s.cached[h])]), s.cached[h])
  }

  /** What a block's memory keeps once the device has computed its known tokens from slot `from` on:
      the slots before stay as they are, and so does the context they were computed in. */
  function Computed(kept: Chain, b: Block, from: nat): Chain {
    var known := Known(b.tokens);
    if from == 0 then Content(b)
    else if kept.Link? && from <= |kept.tokens| && from <= |known| then
      Link(kept.before, kept.tokens[..from] + known[from..], kept.extra)
    else Root
  }

  /** The device computes the object's known tokens from slot `from` on into the memory of its id. */
  ghost function WriteBack(s: State, o: Obj, from: nat): State
    requires o in s.blocks
  {
    var id := s.blocks[o].id;
    s.(memory := s.memory[id := Computed(if id in s.memory then s.memory[id] else Root, s.blocks[o], from)])
  }

  /** Promotion of a block that became shareable, then the device write. */
  ghost function Settle(s: State, o: Obj, from: nat): Result<State>
    requires o in s.blocks
  {
    if HashOf(s.cfg, s.blocks[o]) != INVALID_HASH_VALUE then
      var s1 :- PromoteToImmutableBlock(s, o);
      if o in s1.blocks then Ok(WriteBack(s1, o, from)) else Err(Internal)
    else Ok(WriteBack(s, o, from))
  }

  ghost function CowAndSettle(s: State, o: Obj, from: nat, pick: BlockId): Result<State>
    requires o in s.blocks
  {
    var s1 :- CowBlockIfNotAppendable(s, o, pick);
    if o in s1.blocks then Settle(s1, o, from) else Err(Internal)
  }

  /** `before` is the chain the object's prevBlock_ leads to at the time of the call. The device computes
      only the tokens that became known. */
  ghost function AppendTokenIds(s: State, o: Obj, before: Chain, ts: seq<TokenId>, pick: BlockId): Result<State> {
    if o !in s.blocks then Err(Misuse)
    else
      var b := s.blocks[o].(before := before);
      if HashOf(s.cfg, b) != INVALID_HASH_VALUE || |b.tokens| + |ts| > s.cfg.blockSize then Err(Misuse)
      else
        CowAndSettle(s.(blocks := s.blocks[o := b.(tokens := b.tokens + ts)]), o, |Known(b.tokens)|, pick)
  }

  ghost function ReplaceToken(s: State, o: Obj, before: Chain, i: nat, token: TokenId): Result<State> {
    if o !in s.blocks || i >= |s.blocks[o].tokens| then Err(Misuse)
    else
      var b := s.blocks[o].(before := before);
      Settle(s.(blocks := s.blocks[o := b.(tokens := b.tokens[i := token])]), o, |Known(b.tokens)|)
  }

  ghost function AllocateMutableBlock(s: State, o: Obj, before: Chain, ts: seq<TokenId>, extra: HashValue,
                                      pick: BlockId): Result<State>
  {
    var r :- AllocateBlockId(s, pick);
    AppendTokenIds(r.1.(blocks := r.1.blocks[o := Block(before, [], extra, r.0)]), o, before, ts, pick)
  }

  ghost function AllocateImmutableBlock(s: State, o: Obj, before: Chain, ts: seq<TokenId>, extra: HashValue,
                                        pick: BlockId): Result<State>
  {
    if |ts| > s.cfg.blockSize then Err(Misuse)
    else
      var h := PrefixHash(s.cfg.mix, s.cfg.blockSize, Link(before, ts, extra));
      if h in s.cached then
        IncrRefCountCacheBlock(s.(blocks := s.blocks[o := Block(before, ts, extra, s.cached[h])]), s.cached[h])
      else AllocateMutableBlock(s, o, before, ts, extra, pick)
  }

  /** One block of a forked chain: the copy shares the id. */
  ghost function ForkBlock(s: State, o: Obj, copy: Obj): Result<State> {
    if o !in s.blocks then Err(Misuse)
    else
      var s1 :- Increase(s, s.blocks[o].id);
      if s1.refs[s.blocks[o].id] < 2 then Err(Internal)
      else Ok(s1.(blocks := s1.blocks[copy := s.blocks[o]]))
  }

  ghost function ForkBlocks(s: State, sources: seq<Obj>, copies: seq<Obj>): Result<State>
    requires |sources| == |copies|
    decreases |sources|
  {
    if sources == [] then Ok(s)
    else
      var t :- ForkBlock(s, sources[0], copies[0]);
      ForkBlocks(t, sources[1..], copies[1..])
  }

  ghost function Free(s: State, o: Obj): Result<State> {
    if o !in s.blocks then Err(Misuse) else FreeBlockId(s, o)
  }

  function ComputedInfo(info: map<BlockId, BlockInfo>, ids: set<BlockId>): map<BlockId, BlockInfo> {
    map id | id in info :: if id in ids then info[id].(computed := true) else info[id]
  }

  ghost function MarkBlocksAsComputed(s: State): State {
    s.(info := ComputedInfo(s.info, s.touched), touched := {})
  }

  ghost function ClearCopyOnWrites(s: State): State {
    s.(cows := [])
  }

  ghost function MarkBlockAsAccessed(s: State, id: BlockId, now: TimeStamp): Result<State> {
    if id in s.info && s.info[id].active then Ok(s.(info := s.info[id := s.info[id].(lastAccessed := now)]))
    else Err(Internal)
  }

  ghost function MarkBlocksAsAccessed(s: State, ids: seq<BlockId>, now: TimeStamp): Result<State>
    decreases |ids|
  {
    if ids == [] then Ok(s)
    else
      var t :- MarkBlocksAsAccessed(s, ids[..|ids| - 1], now);
      MarkBlockAsAccessed(t, ids[|ids| - 1], now)
  }

  // ---------- the invariant ----------

  ghost function Holders(blocks: map<Obj, Block>, id: BlockId): set<Obj> {
    set o | o in blocks && blocks[o].id == id
  }

  /** Every id is in exactly one of: the free deque, the evictor, in use. */
  ghost predicate Partitioned(s: State) {
    && NoDup(s.free)
    && (forall id :: id in s.refs <==> InRange(s.cfg, id))
    && s.info.Keys == s.refs.Keys
    && s.touched <= s.refs.Keys
    && (forall id :: id in s.free ==> id in s.refs)
    && (forall id :: id in s.evictor ==> id in s.refs && s.refs[id] == 0)
    && (forall id :: id in s.refs ==> (id in s.free <==> s.refs[id] == 0 && id !in s.evictor))
    && (forall id :: id in s.info ==> (s.info[id].active <==> s.refs[id] > 0))
  }

  /** Ref counts count objects; `held` is an id the running operation keeps for itself. */
  ghost predicate Counted(s: State, held: Option<BlockId>) {
    && (forall o :: o in s.blocks ==> s.blocks[o].id in s.refs)
    && (forall id :: id in s.refs ==> s.refs[id] == |Holders(s.blocks, id)| + (if held == Some(id) then 1 else 0))
    && (held.Some? ==> held.value in s.refs && Holders(s.blocks, held.value) == {})
  }

  /** The tokens of a chain whose blocks are all `blockSize` long. */
  function Span(blockSize: nat, c: Chain): nat {
    match c
    case Root => 0
    case Link(before, _, _) => Span(blockSize, before) + blockSize
  }

  /** The id's content counts as computed: it is marked while in use, and waits in the evictor otherwise. */
  ghost predicate Reported(s: State, id: BlockId) {
    if id in s.info && s.info[id].active then s.info[id].computed else id in s.evictor
  }

  /** A prompt with this hash reuses the block: it is cached, and its content counts as computed. */
  ghost predicate Findable(s: State, h: HashValue) {
    h in s.cached && Reported(s, s.cached[h])
  }

  /** The ids a prompt with these hashes reuses: those of its leading findable blocks. */
  ghost function FoundIds(s: State, hashes: seq<HashValue>): (ids: seq<BlockId>)
    ensures |ids| <= |hashes|
    ensures forall k :: 0 <= k < |ids| ==> Findable(s, hashes[k]) && ids[k] == s.cached[hashes[k]]
    ensures |ids| < |hashes| ==> !Findable(s, hashes[|ids|])
  {
    if hashes == [] || !Findable(s, hashes[0]) then [] else [s.cached[hashes[0]]] + FoundIds(s, hashes[1..])
  }

  /** A cache entry names an id that holds exactly the chain of that hash, and that counts as computed or will
      at the next mark. */
  ghost predicate EntryOk(s: State, h: HashValue)
    requires h in s.cached
  {
    var id := s.cached[h];
    && id in s.refs
    && (s.refs[id] > 0 || id in s.evictor)
    && (Reported(s, id) || id in s.touched)
    && id in s.memory
    && Ready(s.cfg.blockSize, s.memory[id])
    && ChainHash(s.cfg.mix, s.memory[id]) == h
  }

  /** A candidate is cached under the hash it claims, and claims the tokens of its whole prefix. */
  ghost predicate CandidateOk(s: State, id: BlockId)
    requires id in s.evictor
  {
    && s.evictor[id].prefixHash in s.cached && s.cached[s.evictor[id].prefixHash] == id
    && id in s.memory && s.evictor[id].hashedTokensNum == Span(s.cfg.blockSize, s.memory[id])
  }

  ghost predicate CacheOk(s: State, held: Option<BlockId>) {
    && INVALID_HASH_VALUE !in s.cached
    && (forall h :: h in s.cached ==> EntryOk(s, h) && held != Some(s.cached[h]))
    && (forall id :: id in s.evictor ==> CandidateOk(s, id))
    && (forall h, o :: h in s.cached && o in s.blocks && s.blocks[o].id == s.cached[h] ==>
          HashOf(s.cfg, s.blocks[o]) == h)
  }

  ghost predicate WellFormed(cfg: Config, b: Block) {
    && |b.tokens| <= cfg.blockSize
    && Suffixed(b.tokens)
    && (Known(b.tokens) != [] ==> b.before.Root? || Ready(cfg.blockSize, b.before))
  }

  /** A shareable block sits on its cache entry, and every block finds its content under its id. */
  ghost predicate BlockOk(s: State, o: Obj)
    requires o in s.blocks
  {
    var b := s.blocks[o];
    var h := HashOf(s.cfg, b);
    && WellFormed(s.cfg, b)
    && (h != INVALID_HASH_VALUE ==> h in s.cached && s.cached[h] == b.id)
    && (Known(b.tokens) != [] ==> b.id in s.memory && s.memory[b.id] == Content(b))
  }

  /** The invariant while an operation keeps the id `held`. */
  ghost predicate InvHeld(s: State, held: Option<BlockId>) {
    && s.cfg.blockSize > 0
    && Partitioned(s)
    && Counted(s, held)
    && CacheOk(s, held)
    && (forall o :: o in s.blocks ==> BlockOk(s, o))
  }

  ghost predicate Inv(s: State) {
    InvHeld(s, None)
  }

  /** Ids an allocation may still take. */
  ghost function Available(s: State): nat {
    |s.free| + |s.evictor|
  }
}
