/** The allocator without prefix caching, and the device memory behind it: copies are recorded when blocks
    are shared and carried out, in order, before the next device pass writes the new tokens. */
module HashlessSpec {
  import opened Basics

  datatype Config = Config(begin: BlockId, num: nat, blockSize: nat)

  /** A live block object; its tokens from `todo` on are the ones it will write in the next pass. */
  datatype Block = Block(tokens: seq<TokenId>, id: BlockId, todo: nat)

  datatype State = State(
    cfg: Config,
    free: seq<BlockId>,
    refs: map<BlockId, int>,
    cows: seq<(BlockId, BlockId)>,
    blocks: map<Obj, Block>,
    memory: map<BlockId, seq<TokenId>>)   // blockSize slots per id, as the last pass left them

  predicate InRange(cfg: Config, id: BlockId) {
    cfg.begin <= id < cfg.begin + cfg.num
  }

  // ---------- the allocator ----------

  function Increase(s: State, id: BlockId): Result<State> {
    if id !in s.refs || s.refs[id] < 0 then Err(Internal)
    else Ok(s.(refs := s.refs[id := s.refs[id] + 1]))
  }

  function Decrease(s: State, id: BlockId): Result<State> {
    if id !in s.refs || s.refs[id] <= 0 then Err(Internal)
    else Ok(s.(refs := s.refs[id := s.refs[id] - 1]))
  }

  function AllocateBlockId(s: State): Result<(BlockId, State)> {
    if s.free == [] then Err(Exhausted)
    else
      var t :- Increase(s.(free := s.free[1..]), s.free[0]);
      Ok((s.free[0], t))
  }

  /** The object gives up its id. */
  function FreeBlockId(s: State, o: Obj): Result<State>
    requires o in s.blocks
  {
    var id := s.blocks[o].id;
    var t :- Decrease(s.(blocks := s.blocks - {o}), id);
    Ok(if t.refs[id] == 0 then t.(free := t.free + [id]) else t)
  }

  function CowBlockIfNotAppendable(s: State, o: Obj): Result<State>
    requires o in s.blocks
  {
    var b := s.blocks[o];
    if b.id !in s.refs then Err(Internal)
    else if s.refs[b.id] <= 1 then Ok(s)
    else
      var t :- FreeBlockId(s, o);
      var r :- AllocateBlockId(t);
      Ok(r.1.(cows := r.1.cows + [(b.id, r.0)], blocks := r.1.blocks[o := b.(id := r.0)]))
  }

  function AppendTokenIds(s: State, o: Obj, ts: seq<TokenId>): Result<State> {
    if o !in s.blocks || |s.blocks[o].tokens| + |ts| > s.cfg.blockSize then Err(Misuse)
    else CowBlockIfNotAppendable(s.(blocks := s.blocks[o := Longer(s.blocks[o], ts)]), o)
  }

  function Longer(b: Block, ts: seq<TokenId>): Block {
    b.(tokens := b.tokens + ts)
  }

  function ReplaceToken(s: State, o: Obj, i: nat, token: TokenId): Result<State> {
    if o !in s.blocks || i >= |s.blocks[o].tokens| then Err(Misuse)
    else Ok(s.(blocks := s.blocks[o := Replaced(s.blocks[o], i, token)]))
  }

  function Replaced(b: Block, i: nat, token: TokenId): Block
    requires i < |b.tokens|
  {
    b.(tokens := b.tokens[i := token], todo := Min(b.todo, i))
  }

  function AllocateMutableBlock(s: State, o: Obj, ts: seq<TokenId>): Result<State> {
    var r :- AllocateBlockId(s);
    if |ts| > s.cfg.blockSize then Err(Misuse) else Ok(r.1.(blocks := r.1.blocks[o := Block(ts, r.0, 0)]))
  }

  /** The copy shares the id and leaves any pending write to its source. */
  function ForkBlock(s: State, o: Obj, copy: Obj): Result<State> {
    if o !in s.blocks then Err(Misuse)
    else
      var t :- Increase(s, s.blocks[o].id);
      if t.refs[s.blocks[o].id] < 2 then Err(Internal)
      else Ok(t.(blocks := t.blocks[copy := s.blocks[o].(todo := |s.blocks[o].tokens|)]))
  }

  function Free(s: State, o: Obj): Result<State> {
    if o !in s.blocks then Err(Misuse) else FreeBlockId(s, o)
  }

  // ---------- the device ----------

  /** Carries out the recorded copies, first to last. */
  function ApplyCows(m: map<BlockId, seq<TokenId>>, cows: seq<(BlockId, BlockId)>): map<BlockId, seq<TokenId>> {
    if cows == [] then m
    else
      var n := |cows| - 1;
      var m' := ApplyCows(m, cows[..n]);
      if cows[n].0 in m' then m'[cows[n].1 := m'[cows[n].0]] else m'
  }

  /** One block's pending tokens overwrite their slots. */
  function WriteBlock(m: map<BlockId, seq<TokenId>>, b: Block): map<BlockId, seq<TokenId>> {
    if b.id in m && b.todo <= |b.tokens| <= |m[b.id]| then
      m[b.id := m[b.id][..b.todo] + b.tokens[b.todo..] + m[b.id][|b.tokens|..]]
    else m
  }

  /** The pass writes the pending tokens of all objects, in whatever order. */
  function WriteAll(m: map<BlockId, seq<TokenId>>, blocks: map<Obj, Block>, order: seq<Obj>)
    : map<BlockId, seq<TokenId>>
  {
    if order == [] then m
    else
      var n := |order| - 1;
      var m' := WriteAll(m, blocks, order[..n]);
      if order[n] in blocks then WriteBlock(m', blocks[order[n]]) else m'
  }

  /** One device pass: ClearCopyOnWrites hands over the copies, then the model run writes. */
  function DevicePass(s: State, order: seq<Obj>): State {
    s.(memory := WriteAll(ApplyCows(s.memory, s.cows), s.blocks, order), cows := [],
       blocks := map o | o in s.blocks :: s.blocks[o].(todo := |s.blocks[o].tokens|))
  }

  // ---------- the invariant ----------

  ghost function Holders(blocks: map<Obj, Block>, id: BlockId): set<Obj> {
    set o | o in blocks && blocks[o].id == id
  }

  /** An id is free exactly while nobody counts on it, and counts are numbers of objects. */
  ghost predicate Ledger(s: State) {
    && NoDup(s.free)
    && (forall id :: id in s.refs <==> InRange(s.cfg, id))
    && (forall id :: id in s.free ==> id in s.refs)
    && (forall id :: id in s.refs ==> (id in s.free <==> s.refs[id] == 0))
    && (forall o :: o in s.blocks ==> s.blocks[o].id in s.refs)
    && (forall id :: id in s.refs ==> s.refs[id] == |Holders(s.blocks, id)|)
  }

  ghost predicate MemoryShape(s: State, m: map<BlockId, seq<TokenId>>) {
    forall id :: id in s.refs ==> id in m && |m[id]| == s.cfg.blockSize
  }

  /** Objects fit into a block, and holders of one id have the same tokens. */
  ghost predicate Agreeing(s: State) {
    && (forall o :: o in s.blocks ==> s.blocks[o].todo <= |s.blocks[o].tokens| <= s.cfg.blockSize)
    && (forall o, p :: o in s.blocks && p in s.blocks && s.blocks[o].id == s.blocks[p].id ==>
          s.blocks[o].tokens == s.blocks[p].tokens)
  }

  ghost predicate CowsOk(s: State, cows: seq<(BlockId, BlockId)>) {
    forall k :: 0 <= k < |cows| ==> cows[k].0 in s.refs && cows[k].1 in s.refs
  }

  /** What every operation keeps, whenever it is called. */
  ghost predicate Base(s: State) {
    Ledger(s) && CowsOk(s, s.cows) && MemoryShape(s, s.memory) && Agreeing(s)
  }

  /** The memory once the recorded copies are done. */
  function AfterCopies(s: State): map<BlockId, seq<TokenId>> {
    ApplyCows(s.memory, s.cows)
  }

  /** The memory of the block's id shows its token `i`. */
  ghost predicate Written(m: map<BlockId, seq<TokenId>>, b: Block, i: nat)
    requires i < |b.tokens|
  {
    b.id in m && i < |m[b.id]| && m[b.id][i] == b.tokens[i]
  }

  /** `q` is going to write slot `i` of `id`. */
  ghost predicate Owes(s: State, q: Obj, id: BlockId, i: nat) {
    q in s.blocks && s.blocks[q].id == id && s.blocks[q].todo <= i
  }

  /** Slot `i` of `o` is computed, or some holder of its id is going to write it. */
  ghost predicate SlotOk(s: State, o: Obj, i: nat)
    requires o in s.blocks && i < |s.blocks[o].tokens|
  {
    Written(AfterCopies(s), s.blocks[o], i) || exists q :: Owes(s, q, s.blocks[o].id, i)
  }

  ghost predicate InOrder(s: State, o: Obj)
    requires o in s.blocks
  {
    forall i :: 0 <= i < |s.blocks[o].tokens| ==> SlotOk(s, o, i)
  }

  /** Every object's tokens are computed or owed. */
  ghost predicate Inv(s: State) {
    Base(s) && forall o :: o in s.blocks ==> InOrder(s, o)
  }

  ghost predicate Shared(s: State, o: Obj)
    requires o in s.blocks && s.blocks[o].id in s.refs
  {
    s.refs[s.blocks[o].id] > 1
  }

  /** Nobody owes a write to the id of `o`. */
  ghost predicate Settled(s: State, o: Obj)
    requires o in s.blocks
  {
    forall p :: p in s.blocks && s.blocks[p].id == s.blocks[o].id ==> s.blocks[p].todo == |s.blocks[p].tokens|
  }

  /** Whatever a copy of `o` would not write itself is there to be copied. */
  ghost predicate CopyReady(s: State, o: Obj)
    requires o in s.blocks
  {
    var b := s.blocks[o];
    forall i :: 0 <= i < b.todo && i < |b.tokens| ==> Written(AfterCopies(s), b, i)
  }

  /** Whatever `o` owes its id is there already, or somebody else owes it too. */
  ghost predicate Dispensable(s: State, o: Obj)
    requires o in s.blocks
  {
    var b := s.blocks[o];
    forall i :: b.todo <= i < |b.tokens| ==> Written(AfterCopies(s), b, i) || OwedByOther(s, o, i)
  }

  ghost predicate OwedByOther(s: State, o: Obj, i: nat)
    requires o in s.blocks
  {
    exists q :: q != o && Owes(s, q, s.blocks[o].id, i)
  }
}
