/** What each operation on a table's blocks does to the table, to other tables and to the ids left. */
module BlockTableSteps {
  import opened Basics
  import opened Arithmetic
  import opened Chunking
  import opened PrefixChain
  import opened PrefixCacheSpec
  import opened PrefixCacheSteps
  import opened PrefixCacheOperations
  import opened BlockTableSpec

  // ---------- one step of a table ----------

  /** A block that takes tokens in place: unshared and not yet shareable. */
  ghost predicate Writable(s: State, o: Obj) {
    o in s.blocks && Alone(s, o) && HashOf(s.cfg, s.blocks[o]) == INVALID_HASH_VALUE
  }

  ghost predicate WritableFrom(s: State, objs: seq<Obj>, k: nat) {
    forall j :: k <= j < |objs| ==> Writable(s, objs[j])
  }

  /** Only `mine` changed: every other object keeps its block, and stays writable if it was. */
  ghost predicate Kept(s: State, t: State, mine: seq<Obj>) {
    && t.cfg == s.cfg
    && forall p :: p in s.blocks && p !in mine ==> KeptAt(s, t, p)
  }

  ghost predicate KeptAt(s: State, t: State, p: Obj)
    requires p in s.blocks
  {
    p in t.blocks && t.blocks[p] == s.blocks[p] && (Writable(s, p) ==> Writable(t, p))
  }

  lemma KeptSelf(s: State, mine: seq<Obj>)
    ensures Kept(s, s, mine)
  {
  }

  lemma KeptThen(s: State, t: State, u: State, mine: seq<Obj>, o: Obj)
    requires Kept(s, t, mine) && Kept(t, u, [o]) && (o in mine || o !in s.blocks)
    ensures Kept(s, u, mine)
  {
  }

  lemma PlacesKept(s: State, t: State, o: Obj, b: Block)
    requires Inv(s) && Inv(t) && Places(s, t, o, b)
    requires HashOf(s.cfg, b) == INVALID_HASH_VALUE ==> Alone(t, o)
    ensures Kept(s, t, [o])
  {
    forall p | p in s.blocks && p !in [o] ensures KeptAt(s, t, p) {
      if Writable(s, p) { StaysAlone(s, t, o, b, p); }
    }
  }

  /** An operation on other objects leaves a table as it is. */
  lemma OthersKept(s: State, t: State, mine: seq<Obj>, objs: seq<Obj>, tokens: seq<TokenId>, k: nat)
    requires Tabled(s, objs, tokens) && Kept(s, t, mine) && forall j :: 0 <= j < |objs| ==> objs[j] !in mine
    ensures Tabled(t, objs, tokens)
    ensures WritableFrom(s, objs, k) ==> WritableFrom(t, objs, k)
  {
    forall i | 0 <= i < |objs| ensures objs[i] in t.blocks && t.blocks[objs[i]] == s.blocks[objs[i]] {
      assert KeptAt(s, t, objs[i]);
    }
    forall i | 0 <= i < |objs| ensures SlotOk(t, objs, tokens, i) {
      assert SlotOk(s, objs, tokens, i);
    }
  }

  /** An unhashed object's id has lost one user if `left` says so, and none otherwise. */
  ghost predicate Uses(s: State, t: State, p: Obj, left: bool)
    requires p in s.blocks
  {
    HashOf(s.cfg, s.blocks[p]) == INVALID_HASH_VALUE ==>
      var id := s.blocks[p].id;
      id in s.refs ==> id in t.refs && t.refs[id] == s.refs[id] - (if left then 1 else 0)
  }

  ghost predicate UsesSame(s: State, t: State) {
    forall p :: p in s.blocks ==> Uses(s, t, p, false)
  }

  /** Placing a new object on an id of its own, or on a cached one, changes no unhashed object's uses. */
  lemma PlacedUses(s: State, t: State, o: Obj, b: Block, p: Obj)
    requires Inv(s) && Inv(t) && Places(s, t, o, b) && o !in s.blocks && p in s.blocks
    requires HashOf(s.cfg, b) == INVALID_HASH_VALUE ==> Alone(t, o)
    ensures Uses(s, t, p, false)
  {
    var id := s.blocks[p].id;
    HoldersGain(s.blocks, o, t.blocks[o], id);
    if HashOf(s.cfg, s.blocks[p]) == INVALID_HASH_VALUE && t.blocks[o].id == id {
      NotOnUnhashed(t, o, p);
    }
  }

  /** An object that is hashed, or alone, is not on the id of another, unhashed one. */
  lemma NotOnUnhashed(t: State, o: Obj, p: Obj)
    requires Inv(t) && o in t.blocks && p in t.blocks && o != p
    requires HashOf(t.cfg, t.blocks[p]) == INVALID_HASH_VALUE
    requires HashOf(t.cfg, t.blocks[o]) == INVALID_HASH_VALUE ==> Alone(t, o)
    ensures t.blocks[o].id != t.blocks[p].id
  {
    var id := t.blocks[o].id;
    if t.blocks[p].id == id {
      BlockFact(t, None, o);
      if HashOf(t.cfg, t.blocks[o]) == INVALID_HASH_VALUE {
        assert {o, p} <= Holders(t.blocks, id);
        SubsetSize({o, p}, Holders(t.blocks, id));
      }
    }
  }

  lemma SubsetSize(a: set<Obj>, b: set<Obj>)
    requires a <= b
    ensures |a| <= |b|
  {
    assert b == a + (b - a);
  }

  /** An append takes its object off a shared id and leaves all other uses of unhashed objects alone. */
  lemma AppendedUses(s: State, t: State, o: Obj, b: Block, p: Obj)
    requires Inv(s) && Inv(t) && Places(s, t, o, b) && o in s.blocks && p in s.blocks && p != o
    requires HashOf(s.cfg, s.blocks[o]) == INVALID_HASH_VALUE
    requires HashOf(s.cfg, b) == INVALID_HASH_VALUE ==> Alone(t, o)
    ensures Uses(s, t, p, s.blocks[o].id == s.blocks[p].id)
  {
    var id := s.blocks[p].id;
    HoldersLose(s.blocks, o, id);
    HoldersGain(s.blocks - {o}, o, t.blocks[o], id);
    PutBack(s.blocks, o, t.blocks[o]);
    if HashOf(s.cfg, s.blocks[p]) == INVALID_HASH_VALUE {
      NotOnUnhashed(t, o, p);
    }
  }

  /** What placing the new object `o` with `ts` does to everything else; an empty block costs one id. */
  ghost predicate Grown(s: State, t: State, o: Obj, ts: seq<TokenId>) {
    && Kept(s, t, [o]) && t.cows == s.cows && UsesSame(s, t)
    && Available(t) >= Available(s) - 1
    && (ts == [] ==> Writable(t, o) && Available(t) == Available(s) - 1)
  }

  lemma PlacedGrown(s: State, t: State, objs: seq<Obj>, tokens: seq<TokenId>, o: Obj, ts: seq<TokenId>,
                    extra: HashValue)
    requires Inv(s) && Tabled(s, objs, tokens) && o !in s.blocks && Suffixed(tokens + ts)
    requires |ts| <= s.cfg.blockSize && (ts != [] ==> |tokens| == |objs| * s.cfg.blockSize)
    requires PlaceOutcome(s, o, Block(Before(s, objs, |objs|), ts, extra, 0), false, Ok(t))
    ensures Grown(s, t, o, ts) && Tabled(t, objs + [o], tokens + ts)
  {
    var b := Block(Before(s, objs, |objs|), ts, extra, 0);
    PlacedTabled(s, t, objs, tokens, o, ts, extra);
    PlacesKept(s, t, o, b);
    forall p | p in s.blocks ensures Uses(s, t, p, false) { PlacedUses(s, t, o, b, p); }
  }

  /** Ids that putting tokens into `o` takes: one if it cannot be written in place. */
  ghost function Cost(s: State, o: Obj): nat {
    if Writable(s, o) then 0 else 1
  }

  /** One recorded copy more, from `src`. */
  predicate CopyAdded(cows: seq<(BlockId, BlockId)>, more: seq<(BlockId, BlockId)>, src: BlockId) {
    |more| == |cows| + 1 && more[..|cows|] == cows && more[|cows|].0 == src
  }

  /** The copy `pair` leads to the id of `o`, unless that got hashed, which may have moved it on. */
  ghost predicate Lands(t: State, o: Obj, pair: (BlockId, BlockId)) {
    o in t.blocks && HashOf(t.cfg, t.blocks[o]) == INVALID_HASH_VALUE ==> pair.1 == t.blocks[o].id
  }

  /** What putting tokens into `o` does to everything else. A shared block costs an id and a copy, which leads
      to its new id; a block that stays unhashed gives no id back. */
  ghost predicate Extended(s: State, t: State, o: Obj) {
    && o in s.blocks && o in t.blocks && Kept(s, t, [o])
    && (Writable(s, o) ==> t.cows == s.cows)
    && (!Writable(s, o) ==>
          Available(s) > 0 && CopyAdded(s.cows, t.cows, s.blocks[o].id) && Lands(t, o, t.cows[|s.cows|]))
    && Available(t) >= Available(s) - Cost(s, o)
    && (HashOf(t.cfg, t.blocks[o]) == INVALID_HASH_VALUE ==> Available(t) == Available(s) - Cost(s, o))
    && (forall p :: p in s.blocks && p != o ==> Uses(s, t, p, s.blocks[p].id == s.blocks[o].id))
  }

  lemma AppendedExtended(s: State, t: State, objs: seq<Obj>, tokens: seq<TokenId>, k: nat, ts: seq<TokenId>)
    requires Inv(s) && Tabled(s, objs, tokens) && Suffixed(tokens + ts) && k < |objs|
    requires Continues(tokens, ts, s.cfg.blockSize, k) && s.blocks[objs[k]].id in s.refs
    requires AppendOutcome(s, objs[k], Appended(s.blocks[objs[k]], Before(s, objs, k), ts), Ok(t))
    ensures Extended(s, t, objs[k]) && Tabled(t, objs, tokens + ts)
  {
    hide Inv, Tabled, Before, Continues;
    var o := objs[k];
    AppendedTabled(s, t, objs, tokens, ts, k);
    MayAppendNext(s, objs, tokens, ts, k);
    OutcomeExtends(s, t, o, Appended(s.blocks[o], Before(s, objs, k), ts));
  }

  lemma OutcomeExtends(s: State, t: State, o: Obj, b: Block)
    requires Inv(s) && o in s.blocks && s.blocks[o].id in s.refs && AppendOutcome(s, o, b, Ok(t))
    requires HashOf(s.cfg, s.blocks[o]) == INVALID_HASH_VALUE
    ensures Extended(s, t, o)
  {
    hide InvHeld, Uses, Kept;
    PlacesKept(s, t, o, b);
    UsesOf(s, o);
    ZeroNotCachedAtRest(s);
    forall p | p in s.blocks && p != o ensures Uses(s, t, p, s.blocks[p].id == s.blocks[o].id) {
      AppendedUses(s, t, o, b, p);
    }
  }

  lemma ZeroNotCachedAtRest(s: State)
    requires Inv(s)
    ensures INVALID_HASH_VALUE !in s.cached
  {
  }

  /** Since `s0` the table grew from `n0` blocks to `objs`, at most one id each; nothing else changed. */
  ghost predicate SpentBy(s0: State, n0: nat, s: State, objs: seq<Obj>) {
    && Kept(s0, s, []) && s.cows == s0.cows && n0 <= |objs|
    && (forall j :: n0 <= j < |objs| ==> objs[j] !in s0.blocks)
    && Available(s) + |objs| >= Available(s0) + n0
  }

  lemma SpentByOne(s0: State, n0: nat, s: State, objs: seq<Obj>, t: State, o: Obj, ts: seq<TokenId>)
    requires SpentBy(s0, n0, s, objs) && Grown(s, t, o, ts) && o !in s.blocks
    ensures SpentBy(s0, n0, t, objs + [o])
  {
    forall p | p in s0.blocks ensures KeptAt(s0, t, p) {
      assert KeptAt(s0, s, p);
      assert KeptAt(s, t, p);
    }
    forall p | p in s0.blocks ensures p in s.blocks {
      assert KeptAt(s0, s, p);
    }
  }

  /** All blocks the table grew by are empty and writable, and cost an id each. */
  ghost predicate GrownBy(s0: State, n0: nat, s: State, objs: seq<Obj>) {
    && SpentBy(s0, n0, s, objs) && WritableFrom(s, objs, n0) && UsesSame(s0, s)
    && Available(s) + |objs| == Available(s0) + n0
  }

  lemma GrownByOne(s0: State, n0: nat, s: State, objs: seq<Obj>, t: State, o: Obj)
    requires GrownBy(s0, n0, s, objs) && Grown(s, t, o, []) && o !in s.blocks
    ensures GrownBy(s0, n0, t, objs + [o])
  {
    SpentByOne(s0, n0, s, objs, t, o, []);
    forall j | n0 <= j < |objs + [o]| ensures Writable(t, (objs + [o])[j]) {
      if j < |objs| {
        assert Writable(s, objs[j]);
        assert KeptAt(s, t, objs[j]);
      }
    }
    forall p | p in s0.blocks ensures Uses(s0, t, p, false) {
      assert KeptAt(s0, s, p) && Uses(s0, s, p, false) && Uses(s, t, p, false);
    }
  }

  lemma SpentByNone(s: State, objs: seq<Obj>)
    ensures SpentBy(s, |objs|, s, objs)
  {
  }

  lemma GrownByNone(s: State, objs: seq<Obj>)
    ensures GrownBy(s, |objs|, s, objs)
  {
  }

  // ---------- appending over several blocks ----------

  /** Where chunk `i` starts when `empty` tokens still fit into the first block. */
  function Cut(empty: nat, blockSize: nat, i: nat, length: nat): nat {
    if i == 0 then 0 else Min(empty + (i - 1) * blockSize, length)
  }

  /** `chunks` cuts `ts` at the block boundaries. */
  predicate Cutting(chunks: seq<seq<TokenId>>, ts: seq<TokenId>, empty: nat, blockSize: nat) {
    && Cut(empty, blockSize, |chunks|, |ts|) == |ts|
    && forall i :: 0 <= i < |chunks| ==> CutAt(chunks, ts, empty, blockSize, i)
  }

  predicate CutAt(chunks: seq<seq<TokenId>>, ts: seq<TokenId>, empty: nat, blockSize: nat, i: nat)
    requires i < |chunks|
  {
    var from, to := Cut(empty, blockSize, i, |ts|), Cut(empty, blockSize, i + 1, |ts|);
    from < to <= |ts| && chunks[i] == ts[from..to]
  }

  /** `chunks` cuts the first `i` tokens of `ts`, or all of them, into blocks of `size`. */
  ghost predicate CutSoFar(chunks: seq<seq<TokenId>>, ts: seq<TokenId>, size: nat, i: nat) {
    && i == |chunks| * size && (|chunks| > 0 ==> i - size < |ts|)
    && forall j :: 0 <= j < |chunks| ==> CutAt(chunks, ts, size, size, j)
  }

  lemma CutNone(ts: seq<TokenId>, size: nat)
    ensures CutSoFar([], ts, size, 0)
  {
  }

  lemma CutNext(chunks: seq<seq<TokenId>>, ts: seq<TokenId>, size: nat, i: nat)
    requires size > 0 && CutSoFar(chunks, ts, size, i) && i < |ts|
    ensures CutSoFar(chunks + [ts[i..if i + size < |ts| then i + size else |ts|]], ts, size, i + size)
  {
    var n := |chunks|;
    var more := chunks + [ts[i..if i + size < |ts| then i + size else |ts|]];
    assert (n + 1) * size == n * size + size;
    if n > 0 { assert (n - 1) * size == n * size - size; }
    forall j | 0 <= j < |more| ensures CutAt(more, ts, size, size, j) {
      if j < n { assert CutAt(chunks, ts, size, size, j); }
    }
  }

  lemma CutAll(chunks: seq<seq<TokenId>>, ts: seq<TokenId>, size: nat, i: nat)
    requires size > 0 && CutSoFar(chunks, ts, size, i) && i >= |ts|
    ensures Cutting(chunks, ts, size, size)
  {
    var n := |chunks|;
    if n > 0 { assert (n - 1) * size == n * size - size; }
  }

  /** Chunk `i` continues block `first + i`, and fills it unless it is the last. */
  lemma CutContinues(tokens: seq<TokenId>, ts: seq<TokenId>, blockSize: nat, first: nat, i: nat)
    requires first * blockSize <= |tokens| < (first + 1) * blockSize
    ensures
      var empty := (first + 1) * blockSize - |tokens|;
      var from, to := Cut(empty, blockSize, i, |ts|), Cut(empty, blockSize, i + 1, |ts|);
      from < to <= |ts| ==>
        && Continues(tokens + ts[..from], ts[from..to], blockSize, first + i)
        && (tokens + ts[..from]) + ts[from..to] == tokens + ts[..to]
        && (to < |ts| ==> |tokens| + to == (first + i + 1) * blockSize)
  {
    var empty := (first + 1) * blockSize - |tokens|;
    var from, to := Cut(empty, blockSize, i, |ts|), Cut(empty, blockSize, i + 1, |ts|);
    CutProducts(first, i, blockSize);
    if from < to <= |ts| {
      CutBounds(|tokens|, |ts|, blockSize, (first + 1) * blockSize, i * blockSize, from, to);
      assert ts[..from] + ts[from..to] == ts[..to];
    }
  }

  lemma CutProducts(first: nat, i: nat, blockSize: nat)
    ensures (first + i + 1) * blockSize == (first + 1) * blockSize + i * blockSize
    ensures (first + i) * blockSize == (first + 1) * blockSize + i * blockSize - blockSize
    ensures i > 0 ==> (i - 1) * blockSize == i * blockSize - blockSize
    ensures i == 0 ==> i * blockSize == 0
    ensures i > 0 ==> i * blockSize >= blockSize
  {
    if i > 0 { assert i * blockSize == (i - 1) * blockSize + blockSize; }
  }

  /** `end` is where the first block ends, `more` the size of the blocks up to the one in question. */
  lemma CutBounds(n: nat, length: nat, blockSize: nat, end: nat, more: nat, from: nat, to: nat)
    requires end - blockSize <= n < end && (more == 0 || more >= blockSize)
    requires from == (if more == 0 then 0 else Min(end - n + more - blockSize, length))
    requires to == Min(end - n + more, length) && from < to <= length
    ensures end + more - blockSize <= n + from < end + more && n + to <= end + more
    ensures to < length ==> n + to == end + more
  {
  }

  lemma SuffixedPrefix(tokens: seq<TokenId>, ts: seq<TokenId>, n: nat)
    requires Suffixed(tokens + ts) && n <= |ts|
    ensures Suffixed(tokens + ts[..n])
  {
    assert tokens + ts[..n] == (tokens + ts)[..|tokens| + n];
  }

  /** `ts` comes behind `tokens`, which leave `empty` slots in block `first`, in `chunks`. */
  ghost predicate Cuts(chunks: seq<seq<TokenId>>, blockSize: nat, blocks: nat, first: nat, empty: nat,
                       tokens: seq<TokenId>, ts: seq<TokenId>) {
    && Suffixed(tokens + ts) && |tokens| + |ts| <= blocks * blockSize
    && 0 < empty <= blockSize && |tokens| + empty == (first + 1) * blockSize
    && Cutting(chunks, ts, empty, blockSize)
  }

  lemma CutsStart(chunks: seq<seq<TokenId>>, blockSize: nat, blocks: nat, tokens: seq<TokenId>, ts: seq<TokenId>)
    requires blockSize > 0 && Suffixed(tokens + ts) && |tokens| + |ts| <= blocks * blockSize
    requires Cutting(chunks, ts, blockSize - |tokens| % blockSize, blockSize)
    ensures Cuts(chunks, blockSize, blocks, |tokens| / blockSize, blockSize - |tokens| % blockSize, tokens, ts)
  {
    BlockBounds(|tokens|, blockSize);
    var first := |tokens| / blockSize;
    assert (first + 1) * blockSize == first * blockSize + blockSize;
  }

  /** The tokens once `i` chunks are in. */
  ghost function HeldAfter(blockSize: nat, empty: nat, tokens: seq<TokenId>, ts: seq<TokenId>, i: nat): seq<TokenId> {
    tokens + ts[..Cut(empty, blockSize, i, |ts|)]
  }

  lemma HeldEnds(chunks: seq<seq<TokenId>>, blockSize: nat, blocks: nat, first: nat, empty: nat, tokens: seq<TokenId>,
                 ts: seq<TokenId>)
    requires Cuts(chunks, blockSize, blocks, first, empty, tokens, ts)
    ensures HeldAfter(blockSize, empty, tokens, ts, 0) == tokens
    ensures HeldAfter(blockSize, empty, tokens, ts, |chunks|) == tokens + ts
  {
    assert ts[..|ts|] == ts;
  }

  /** After `i` chunks, chunk `i` has its place. */
  lemma CutStep(chunks: seq<seq<TokenId>>, blockSize: nat, blocks: nat, first: nat, empty: nat, tokens: seq<TokenId>,
                ts: seq<TokenId>, i: nat)
    requires Cuts(chunks, blockSize, blocks, first, empty, tokens, ts) && i < |chunks|
    ensures
      var held := HeldAfter(blockSize, empty, tokens, ts, i);
      && first + i < blocks && Continues(held, chunks[i], blockSize, first + i) && Suffixed(held + chunks[i])
      && held + chunks[i] == HeldAfter(blockSize, empty, tokens, ts, i + 1)
      && (i + 1 < |chunks| ==> |held + chunks[i]| == (first + i + 1) * blockSize)
  {
    assert CutAt(chunks, ts, empty, blockSize, i);
    assert first * blockSize == (first + 1) * blockSize - blockSize;
    CutContinues(tokens, ts, blockSize, first, i);
    SuffixedPrefix(tokens, ts, Cut(empty, blockSize, i + 1, |ts|));
    if blocks <= first + i { Scaled(blocks, first + i, blockSize); }
    if i + 1 < |chunks| { assert CutAt(chunks, ts, empty, blockSize, i + 1); }
  }

  /** Chunk `i` of a list cut from the start fills block `i` from its beginning. */
  lemma AllocStep(chunks: seq<seq<TokenId>>, blockSize: nat, ts: seq<TokenId>, i: nat)
    requires blockSize > 0 && Suffixed(ts) && Cutting(chunks, ts, blockSize, blockSize) && i < |chunks|
    ensures
      var held := HeldAfter(blockSize, blockSize, [], ts, i);
      && |held| == i * blockSize && 0 < |chunks[i]| <= blockSize && Suffixed(held + chunks[i])
      && held + chunks[i] == HeldAfter(blockSize, blockSize, [], ts, i + 1)
  {
    assert CutAt(chunks, ts, blockSize, blockSize, i);
    assert [] + ts == ts;
    CutContinues([], ts, blockSize, 0, i);
    SuffixedPrefix([], ts, Cut(blockSize, blockSize, i + 1, |ts|));
    if i > 0 { assert (i - 1) * blockSize == i * blockSize - blockSize; }
  }

  lemma AllocEnds(chunks: seq<seq<TokenId>>, blockSize: nat, ts: seq<TokenId>)
    requires blockSize > 0 && Cutting(chunks, ts, blockSize, blockSize)
    ensures HeldAfter(blockSize, blockSize, [], ts, 0) == []
    ensures HeldAfter(blockSize, blockSize, [], ts, |chunks|) == ts
    ensures |chunks| == CeilDiv(|ts|, blockSize)
  {
    assert ts[..|ts|] == ts;
    var n := |chunks|;
    if n > 0 {
      assert CutAt(chunks, ts, blockSize, blockSize, n - 1);
      assert (n - 1) * blockSize == n * blockSize - blockSize;
      if n > 1 { assert (n - 2) * blockSize == n * blockSize - 2 * blockSize; }
      DivIs(|ts| + blockSize - 1, blockSize, n);
    }
  }

  /** How many of the blocks `from..to` cannot be written in place. */
  ghost function Unready(s: State, objs: seq<Obj>, from: nat, to: nat): nat {
    if to <= from then 0
    else Unready(s, objs, from, to - 1) + (if to <= |objs| then Cost(s, objs[to - 1]) else 0)
  }

  lemma {:induction false} UnreadyGrows(s: State, objs: seq<Obj>, from: nat, a: nat, b: nat)
    requires a <= b || |objs| <= b
    ensures Unready(s, objs, from, a) <= Unready(s, objs, from, b)
    decreases a + b
  {
    if from < a && b < a {
      UnreadyGrows(s, objs, from, a - 1, b);
    } else if from < b && a < b {
      UnreadyGrows(s, objs, from, a, b - 1);
    }
  }

  /** Behind `from` everything may be written in place. */
  lemma {:induction false} UnreadyFirst(s: State, objs: seq<Obj>, from: nat, to: nat)
    requires WritableFrom(s, objs, from + 1) && from < to
    ensures Unready(s, objs, from, to) == Unready(s, objs, from, from + 1)
  {
    if from + 1 < to { UnreadyFirst(s, objs, from, to - 1); }
  }

  /** Whether writing block `first` of the table takes it off the id of `p`. */
  ghost predicate Leaves(s: State, objs: seq<Obj>, first: nat, p: Obj) {
    first < |objs| && objs[first] in s.blocks && p in s.blocks && s.blocks[objs[first]].id == s.blocks[p].id
  }

  /** No block from `first` on that `tokens` fill may be hashed. */
  ghost predicate Quiet(tokens: seq<TokenId>, blockSize: nat, first: nat) {
    forall k :: first <= k ==> EndsUnknown(tokens, blockSize, k)
  }

  predicate EndsUnknown(tokens: seq<TokenId>, blockSize: nat, k: nat) {
    0 < (k + 1) * blockSize <= |tokens| ==> tokens[(k + 1) * blockSize - 1] == PLACEHOLDER_TOKEN
  }

  lemma QuietUnhashed(s: State, objs: seq<Obj>, tokens: seq<TokenId>, longer: seq<TokenId>, first: nat, k: nat)
    requires s.cfg.blockSize > 0 && Tabled(s, objs, tokens) && tokens <= longer && first <= k < |objs|
    ensures Quiet(longer, s.cfg.blockSize, first) ==> HashOf(s.cfg, s.blocks[objs[k]]) == INVALID_HASH_VALUE
  {
    assert SlotOk(s, objs, tokens, k);
    if Quiet(longer, s.cfg.blockSize, first) {
      assert EndsUnknown(longer, s.cfg.blockSize, k);
      UnknownUnhashed(s, objs, tokens, longer, k);
    }
  }

  lemma UnknownUnhashed(s: State, objs: seq<Obj>, tokens: seq<TokenId>, longer: seq<TokenId>, k: nat)
    requires s.cfg.blockSize > 0 && Tabled(s, objs, tokens) && tokens <= longer && k < |objs|
    requires EndsUnknown(longer, s.cfg.blockSize, k)
    ensures objs[k] in s.blocks && HashOf(s.cfg, s.blocks[objs[k]]) == INVALID_HASH_VALUE
  {
    var bs := s.cfg.blockSize;
    assert SlotOk(s, objs, tokens, k);
    if |s.blocks[objs[k]].tokens| == bs {
      ChunkAt(tokens, bs, k, bs - 1);
      assert (k + 1) * bs == k * bs + bs;
    }
  }

  /** Block `j` of the table is writable if it is new or was so at the start. */
  ghost predicate AsReady(s0: State, mine: seq<Obj>, s: State, objs: seq<Obj>, j: nat)
    requires j < |objs|
  {
    (j < |mine| ==> Writable(s0, mine[j])) ==> Writable(s, objs[j])
  }

  /** Since `s0`, when the table was `mine`, it grew to `objs`, which left `floor` ids, and its blocks from
      `first` up to `k` were written: each that could not be written in place cost an id and a copy. */
  ghost predicate Appending(s0: State, mine: seq<Obj>, first: nat, floor: int, s: State, objs: seq<Obj>, k: nat,
                            quiet: bool) {
    && mine <= objs && first <= k && Kept(s0, s, mine)
    && (forall j :: 0 <= j < |objs| ==> objs[j] in mine || objs[j] !in s0.blocks)
    && (forall j :: k <= j < |objs| ==> AsReady(s0, mine, s, objs, j))
    && Available(s) >= floor - Unready(s0, mine, first, k)
    && s0.cows <= s.cows && |s.cows| <= |s0.cows| + Unready(s0, mine, first, k)
    && (k == first ==> Available(s) == floor && s.cows == s0.cows && Unsplit(s0, mine, first, s))
    && (first < k ==> FirstPaid(s0, mine, first, floor, s))
    && (WritableFrom(s0, mine, first + 1) ==>
          && (quiet ==> Available(s) == floor - Unready(s0, mine, first, k))
          && forall p :: p in s0.blocks && p !in mine ==>
               Uses(s0, s, p, first < k && Leaves(s0, mine, first, p)))
  }

  /** Block `first` is what it was, shared if it was. */
  ghost predicate Unsplit(s0: State, mine: seq<Obj>, first: nat, s: State) {
    first < |mine| ==>
      && mine[first] in s0.blocks && mine[first] in s.blocks && s.blocks[mine[first]] == s0.blocks[mine[first]]
      && (Writable(s, mine[first]) ==> Writable(s0, mine[first]))
  }

  /** Writing block `first` found the id it needed and recorded the copy there. */
  ghost predicate FirstPaid(s0: State, mine: seq<Obj>, first: nat, floor: int, s: State) {
    first < |mine| && !Writable(s0, mine[first]) ==>
      && floor > 0 && mine[first] in s0.blocks
      && |s.cows| > |s0.cows| && s.cows[|s0.cows|].0 == s0.blocks[mine[first]].id
      && Lands(s, mine[first], s.cows[|s0.cows|])
  }

  lemma AppendingStarts(s0: State, mine: seq<Obj>, s: State, objs: seq<Obj>, first: nat, quiet: bool)
    requires Inv(s0) && Inv(s) && GrownBy(s0, |mine|, s, objs) && mine <= objs
    requires forall j :: 0 <= j < |mine| ==> mine[j] in s0.blocks
    requires first < |mine| ==> HashOf(s0.cfg, s0.blocks[mine[first]]) == INVALID_HASH_VALUE
    ensures Appending(s0, mine, first, Available(s0) + |mine| - |objs|, s, objs, first, quiet)
  {
    forall p | p in s0.blocks && p !in mine ensures KeptAt(s0, s, p) && Uses(s0, s, p, false) {}
    forall j | 0 <= j < |objs| ensures objs[j] in mine || objs[j] !in s0.blocks {
      if j < |mine| { assert objs[j] == mine[j]; }
    }
    forall j | first <= j < |objs| ensures AsReady(s0, mine, s, objs, j) {
      if j < |mine| {
        assert objs[j] == mine[j];
        assert KeptAt(s0, s, mine[j]);
      }
    }
    if first < |mine| {
      assert KeptAt(s0, s, mine[first]) && Uses(s0, s, mine[first], false);
    }
  }

  lemma CostAsReady(s0: State, mine: seq<Obj>, first: nat, floor: int, s: State, objs: seq<Obj>, k: nat, quiet: bool)
    requires Appending(s0, mine, first, floor, s, objs, k, quiet) && k < |objs|
    ensures Unready(s0, mine, first, k) + Cost(s, objs[k]) <= Unready(s0, mine, first, k + 1)
    ensures k == first || (WritableFrom(s0, mine, first + 1)) ==>
      Unready(s0, mine, first, k) + Cost(s, objs[k]) == Unready(s0, mine, first, k + 1)
    ensures k >= |mine| || (k > first && WritableFrom(s0, mine, first + 1)) ==> Writable(s, objs[k])
    ensures k < |mine| ==> objs[k] == mine[k]
  {
    assert AsReady(s0, mine, s, objs, k);
    assert Unready(s0, mine, first, first) == 0;
  }

  lemma AppendingOne(s0: State, mine: seq<Obj>, first: nat, floor: int, s: State, objs: seq<Obj>, k: nat, quiet: bool,
                     tokens: seq<TokenId>, t: State)
    requires Appending(s0, mine, first, floor, s, objs, k, quiet) && Inv(s) && Tabled(s, objs, tokens)
    requires k < |objs| && Extended(s, t, objs[k])
    requires quiet ==> HashOf(t.cfg, t.blocks[objs[k]]) == INVALID_HASH_VALUE
    ensures Appending(s0, mine, first, floor, t, objs, k + 1, quiet)
  {
    CostAsReady(s0, mine, first, floor, s, objs, k, quiet);
    forall p | p in s0.blocks && p !in mine ensures KeptAt(s0, t, p) {
      assert KeptAt(s0, s, p);
      assert p != objs[k];
      assert KeptAt(s, t, p);
    }
    forall j | k + 1 <= j < |objs| ensures AsReady(s0, mine, t, objs, j) {
      assert AsReady(s0, mine, s, objs, j);
      assert objs[j] != objs[k];
      assert objs[j] in s.blocks ==> KeptAt(s, t, objs[j]);
    }
    if first < k && first < |mine| { LandsStill(s, t, objs, first, k); }
    AppendingCows(s0, mine, first, floor, s, objs, k, quiet, t);
    if WritableFrom(s0, mine, first + 1) {
      forall p | p in s0.blocks && p !in mine ensures Uses(s0, t, p, Leaves(s0, mine, first, p)) {
        AppendingUses(s0, mine, first, floor, s, objs, k, quiet, t, p);
      }
    }
  }

  lemma LandsStill(s: State, t: State, objs: seq<Obj>, first: nat, k: nat)
    requires first < k < |objs| && objs[first] != objs[k] && Extended(s, t, objs[k]) && objs[first] in s.blocks
    ensures forall pair :: Lands(s, objs[first], pair) <==> Lands(t, objs[first], pair)
  {
    assert KeptAt(s, t, objs[first]);
  }

  lemma AppendingCows(s0: State, mine: seq<Obj>, first: nat, floor: int, s: State, objs: seq<Obj>, k: nat, quiet: bool,
                      t: State)
    requires Appending(s0, mine, first, floor, s, objs, k, quiet) && k < |objs| && Extended(s, t, objs[k])
    requires first < k && first < |mine| ==>
      forall pair :: Lands(s, mine[first], pair) <==> Lands(t, mine[first], pair)
    ensures s0.cows <= t.cows && |t.cows| <= |s0.cows| + Unready(s0, mine, first, k + 1)
    ensures FirstPaid(s0, mine, first, floor, t)
  {
    hide Kept, Writable, Uses, Available, AsReady, Lands;
    CostAsReady(s0, mine, first, floor, s, objs, k, quiet);
    assert s.cows <= t.cows;
  }

  lemma AppendingUses(s0: State, mine: seq<Obj>, first: nat, floor: int, s: State, objs: seq<Obj>, k: nat, quiet: bool,
                      t: State, p: Obj)
    requires Appending(s0, mine, first, floor, s, objs, k, quiet) && Inv(s)
    requires k < |objs| && Extended(s, t, objs[k]) && p in s0.blocks && p !in mine
    requires WritableFrom(s0, mine, first + 1)
    ensures Uses(s0, t, p, Leaves(s0, mine, first, p))
  {
    hide Inv, Available, CopyAdded, Unready;
    var o := objs[k];
    CostAsReady(s0, mine, first, floor, s, objs, k, quiet);
    assert KeptAt(s0, s, p) && p != o;
    assert Uses(s0, s, p, first < k && Leaves(s0, mine, first, p));
    assert Uses(s, t, p, s.blocks[p].id == s.blocks[o].id);
    if HashOf(s0.cfg, s0.blocks[p]) == INVALID_HASH_VALUE && Writable(s, o) {
      NotOnUnhashed(s, o, p);
    }
  }

  lemma AppendingFails(s0: State, mine: seq<Obj>, first: nat, floor: int, s: State, objs: seq<Obj>, k: nat, quiet: bool)
    requires Appending(s0, mine, first, floor, s, objs, k, quiet) && k < |objs|
    requires !Writable(s, objs[k]) && Available(s) == 0
    ensures floor < Unready(s0, mine, first, |mine|)
  {
    hide Kept, Writable, Uses, Available, AsReady;
    CostAsReady(s0, mine, first, floor, s, objs, k, quiet);
    UnreadyGrows(s0, mine, first, k + 1, |mine|);
  }

  /** The block behind the last full one may not be hashed. */
  lemma FirstUnhashed(s: State, objs: seq<Obj>, tokens: seq<TokenId>)
    requires s.cfg.blockSize > 0 && Tabled(s, objs, tokens)
    ensures forall j :: 0 <= j < |objs| ==> objs[j] in s.blocks
    ensures
      var first := |tokens| / s.cfg.blockSize;
      first < |objs| ==> HashOf(s.cfg, s.blocks[objs[first]]) == INVALID_HASH_VALUE
  {
    var first := |tokens| / s.cfg.blockSize;
    if first < |objs| {
      assert SlotOk(s, objs, tokens, first);
      BlockBounds(|tokens|, s.cfg.blockSize);
      ChunkShareAt(tokens, s.cfg.blockSize, first, first);
    }
  }

  lemma GrownFloor(s0: State, mine: seq<Obj>, s: State, objs: seq<Obj>)
    requires GrownBy(s0, |mine|, s, objs)
    ensures |mine| <= |objs| <= Available(s0) + |mine|
  {
  }

  lemma CuttingSome(chunks: seq<seq<TokenId>>, ts: seq<TokenId>, empty: nat, blockSize: nat)
    requires Cutting(chunks, ts, empty, blockSize)
    ensures chunks == [] <==> ts == []
  {
    if chunks != [] { assert CutAt(chunks, ts, empty, blockSize, 0); }
  }

  lemma HeldWithin(blockSize: nat, empty: nat, tokens: seq<TokenId>, ts: seq<TokenId>, i: nat)
    ensures HeldAfter(blockSize, empty, tokens, ts, i) <= tokens + ts
  {
    var n := Cut(empty, blockSize, i, |ts|);
    assert (tokens + ts)[..|tokens| + n] == tokens + ts[..n];
  }

  /** How appending `ts` to a table ends. Blocks that cannot be written in place cost an id and a copy each.
      If that is at most the first written block, it succeeds exactly given ids for the new blocks and for
      that copy; and if no block gets hashed, it costs exactly these. */
  ghost predicate AppendResult(s: State, objs: seq<Obj>, tokens: seq<TokenId>, ts: seq<TokenId>, lookahead: nat,
                               r: Result<State>) {
    && s.cfg.blockSize > 0 && |tokens| <= |objs| * s.cfg.blockSize
    && var count := NewBlocks(|objs|, |tokens|, |ts| + lookahead, s.cfg.blockSize);
    var first := |tokens| / s.cfg.blockSize;
    var toll := Toll(s, objs, first, ts);
    match r
    case Err(e) => if objs == [] then e == Misuse else e == Exhausted && Available(s) < count + toll
    case Ok(t) =>
      && objs != [] && Kept(s, t, objs)
      && Available(s) >= count && Available(t) >= Available(s) - count - toll
      && s.cows <= t.cows && |t.cows| <= |s.cows| + toll
      && (WritableFrom(s, objs, first + 1) ==>
            && Available(s) >= count + toll
            && (toll > 0 ==> objs[first] in s.blocks && CopyAdded(s.cows, t.cows, s.blocks[objs[first]].id)
                             && Lands(t, objs[first], t.cows[|s.cows|]))
            && (Quiet(tokens + ts, s.cfg.blockSize, first) ==> Available(t) == Available(s) - count - toll)
            && forall p :: p in s.blocks && p !in objs ==> Uses(s, t, p, ts != [] && Leaves(s, objs, first, p)))
  }

  /** Blocks that appending `ts` may have to copy. */
  ghost function Toll(s: State, objs: seq<Obj>, first: nat, ts: seq<TokenId>): nat {
    if ts == [] then 0 else Unready(s, objs, first, |objs|)
  }

  /** From the two halves of an append, growing and filling, to its result. */
  lemma AppendFilled(s: State, objs: seq<Obj>, tokens: seq<TokenId>, ts: seq<TokenId>, lookahead: nat, blocks: nat,
                     r: Result<State>)
    requires s.cfg.blockSize > 0 && |tokens| <= |objs| * s.cfg.blockSize && objs != []
    requires blocks == |objs| + NewBlocks(|objs|, |tokens|, |ts| + lookahead, s.cfg.blockSize)
    requires Available(s) + |objs| >= blocks
    requires Filled(s, objs, |tokens| / s.cfg.blockSize, blocks, tokens, ts, r)
    ensures AppendResult(s, objs, tokens, ts, lookahead, r)
  {
  }

  lemma AppendUnfilled(s: State, objs: seq<Obj>, tokens: seq<TokenId>, ts: seq<TokenId>, lookahead: nat, e: Error)
    requires s.cfg.blockSize > 0 && |tokens| <= |objs| * s.cfg.blockSize
    requires if objs == [] then e == Misuse
             else e == Exhausted && Available(s) < NewBlocks(|objs|, |tokens|, |ts| + lookahead, s.cfg.blockSize)
    ensures AppendResult(s, objs, tokens, ts, lookahead, Err(e))
  {
  }

  ghost predicate Filled(s: State, mine: seq<Obj>, first: nat, blocks: nat, tokens: seq<TokenId>, ts: seq<TokenId>,
                         r: Result<State>) {
    var toll := Toll(s, mine, first, ts);
    var floor := Available(s) + |mine| - blocks;
    match r
    case Err(e) => e == Exhausted && floor < toll
    case Ok(t) =>
      && Kept(s, t, mine) && Available(t) >= floor - toll
      && s.cows <= t.cows && |t.cows| <= |s.cows| + toll
      && (WritableFrom(s, mine, first + 1) ==>
            && floor >= toll
            && (toll > 0 ==> first < |mine| && mine[first] in s.blocks
                             && CopyAdded(s.cows, t.cows, s.blocks[mine[first]].id)
                             && Lands(t, mine[first], t.cows[|s.cows|]))
            && (Quiet(tokens + ts, s.cfg.blockSize, first) ==> Available(t) == floor - toll)
            && forall p :: p in s.blocks && p !in mine ==> Uses(s, t, p, ts != [] && Leaves(s, mine, first, p)))
  }

  lemma FilledBy(s: State, mine: seq<Obj>, t: State, objs: seq<Obj>, first: nat, k: nat, tokens: seq<TokenId>,
                 ts: seq<TokenId>)
    requires |mine| <= |objs| <= Available(s) + |mine|
    requires Appending(s, mine, first, Available(s) + |mine| - |objs|, t, objs, k,
                       Quiet(tokens + ts, s.cfg.blockSize, first))
    requires first < k <==> ts != []
    ensures Filled(s, mine, first, |objs|, tokens, ts, Ok(t))
  {
    hide Kept, Uses, Quiet, Available, Writable;
    UnreadyGrows(s, mine, first, k, |mine|);
    if WritableFrom(s, mine, first + 1) && first < k {
      UnreadyFirst(s, mine, first, k);
      if first < |mine| { UnreadyFirst(s, mine, first, |mine|); }
      UnreadyGrows(s, mine, first, first + 1, |mine|);
    }
  }

  lemma FilledNot(s: State, mine: seq<Obj>, first: nat, blocks: nat, tokens: seq<TokenId>, ts: seq<TokenId>)
    requires ts != [] && Available(s) + |mine| - blocks < Unready(s, mine, first, |mine|)
    ensures Filled(s, mine, first, blocks, tokens, ts, Err(Exhausted))
  {
  }

  // ---------- forking ----------

  lemma {:induction false} WithCopiesFrom(m: map<Obj, Block>, sources: seq<Obj>, copies: seq<Obj>, q: Obj)
    requires |sources| == |copies| && q in WithCopies(m, sources, copies)
    ensures q in m || exists k :: 0 <= k < |copies| && copies[k] == q
    decreases |sources|
  {
    if sources != [] && sources[0] in m {
      WithCopiesFrom(m[copies[0] := m[sources[0]]], sources[1..], copies[1..], q);
    }
  }

  /** A fork leaves all other objects as they are, and alone if they were. */
  lemma ForkedKept(s: State, t: State, objs: seq<Obj>, copies: seq<Obj>)
    requires Inv(s) && Inv(t) && t.cfg == s.cfg && |copies| == |objs|
    requires forall k :: 0 <= k < |objs| ==> objs[k] in s.blocks && copies[k] !in s.blocks
    requires forall i, j :: 0 <= i < j < |copies| ==> copies[i] != copies[j]
    requires t.blocks == WithCopies(s.blocks, objs, copies)
    ensures Kept(s, t, objs)
  {
    forall p | p in s.blocks && p !in objs ensures KeptAt(s, t, p) {
      WithCopiesKeeps(s.blocks, objs, copies, p);
      if Writable(s, p) {
        var id := s.blocks[p].id;
        OnlyHolder(s, p);
        assert forall k :: 0 <= k < |objs| ==> (objs[k] in Holders(s.blocks, id) <==> s.blocks[objs[k]].id == id);
        forall q | q in Holders(t.blocks, id) ensures q == p {
          WithCopiesFrom(s.blocks, objs, copies, q);
          if q in s.blocks {
            WithCopiesKeeps(s.blocks, objs, copies, q);
            assert q in Holders(s.blocks, id);
          } else {
            var k :| 0 <= k < |copies| && copies[k] == q;
            WithCopiesAt(s.blocks, objs, copies, k);
          }
        }
        assert p in Holders(t.blocks, id);
        assert Holders(t.blocks, id) == {p};
      }
    }
  }

  lemma OnlyHolder(s: State, p: Obj)
    requires Inv(s) && p in s.blocks && Alone(s, p)
    ensures Holders(s.blocks, s.blocks[p].id) == {p}
  {
    var all := Holders(s.blocks, s.blocks[p].id);
    assert p in all && |all - {p}| == 0;
  }

  // ---------- freeing ----------

  lemma FreeStaysAlone(s: State, t: State, o: Obj, p: Obj)
    requires Inv(s) && Inv(t) && t.blocks == s.blocks - {o} && o in s.blocks && p in s.blocks && p != o && Alone(s, p)
    ensures Alone(t, p)
  {
    var id := s.blocks[p].id;
    assert p in Holders(s.blocks, id) && p in Holders(t.blocks, id);
    assert Holders(t.blocks, id) == Holders(s.blocks, id) - {o};
    assert |Holders(s.blocks, id) - {p}| == 0;
    assert o !in Holders(s.blocks, id) - {p};
  }

  lemma FreeStep(s0: State, mine: seq<Obj>, s: State, o: Obj, t: State)
    requires Kept(s0, s, mine) && Inv(s) && o in s.blocks && o in mine && Free(s, o) == Ok(t)
    ensures Kept(s0, t, mine) && Available(t) >= Available(s) && t.cows == s.cows && t.blocks == s.blocks - {o}
    ensures t.memory == s.memory
  {
    FreeCorrect(s, o);
    forall p | p in s0.blocks && p !in mine ensures KeptAt(s0, t, p) {
      assert KeptAt(s0, s, p);
      if Writable(s, p) { FreeStaysAlone(s, t, o, p); }
    }
  }

  // ---------- replacing trailing placeholders ----------

  /** Every block touching positions `lo..hi` that is not shareable yet is unshared. */
  ghost predicate OwnBlocksIn(s: State, objs: seq<Obj>, lo: nat, hi: nat) {
    forall j :: 0 <= j < |objs| && lo < (j + 1) * s.cfg.blockSize && j * s.cfg.blockSize < hi ==> OwnBlock(s, objs[j])
  }

  ghost predicate OwnBlock(s: State, o: Obj) {
    o in s.blocks && (HashOf(s.cfg, s.blocks[o]) == INVALID_HASH_VALUE ==> Alone(s, o))
  }

  /** What replacing a token of `o` does to everything else. */
  ghost predicate Refilled(s: State, t: State, o: Obj) {
    Kept(s, t, [o]) && OwnBlock(t, o) && Available(t) >= Available(s) && t.cows == s.cows
  }

  lemma ReplacedRefilled(s: State, t: State, objs: seq<Obj>, tokens: seq<TokenId>, p: nat, k: nat, token: TokenId)
    requires CollisionFree(s.cfg.mix) && Inv(s) && Tabled(s, objs, tokens) && k < |objs|
    requires FirstPlaceholder(tokens, s.cfg.blockSize, p, k) && token != PLACEHOLDER_TOKEN
    requires s.blocks[objs[k]].id in s.refs && !Shared(s, objs[k])
    requires ReplaceToken(s, objs[k], Before(s, objs, k), p - k * s.cfg.blockSize, token) == Ok(t)
    ensures Refilled(s, t, objs[k]) && Tabled(t, objs, tokens[p := token]) && Inv(t)
    ensures |t.blocks[objs[k]].tokens| < s.cfg.blockSize ==> t.blocks[objs[k]].id == s.blocks[objs[k]].id
  {
    hide InvHeld, CollisionFree, ReplaceToken, WellFormed;
    var i := p - k * s.cfg.blockSize;
    MayReplaceFirst(s, objs, tokens, p, k, token);
    ReplaceTokenCorrect(s, objs[k], Before(s, objs, k), i, token);
    ReplacedTabled(s, t, objs, tokens, p, k, token);
    PlacesKept(s, t, objs[k], Replaced(s.blocks[objs[k]], Before(s, objs, k), i, token));
  }

  lemma RefilledKeepsOwn(s: State, t: State, objs: seq<Obj>, tokens: seq<TokenId>, lo: nat, hi: nat, k: nat)
    requires Tabled(s, objs, tokens) && k < |objs| && Refilled(s, t, objs[k]) && OwnBlocksIn(s, objs, lo, hi)
    ensures OwnBlocksIn(t, objs, lo, hi)
  {
    forall j | 0 <= j < |objs| && lo < (j + 1) * s.cfg.blockSize && j * s.cfg.blockSize < hi
      ensures OwnBlock(t, objs[j])
    {
      if j != k {
        assert OwnBlock(s, objs[j]);
        assert KeptAt(s, t, objs[j]);
      }
    }
  }

  /** The block of the first placeholder is not shareable. */
  lemma PlaceholderUnhashed(s: State, objs: seq<Obj>, tokens: seq<TokenId>, p: nat, k: nat)
    requires Inv(s) && Tabled(s, objs, tokens) && k < |objs| && FirstPlaceholder(tokens, s.cfg.blockSize, p, k)
    ensures HashOf(s.cfg, s.blocks[objs[k]]) == INVALID_HASH_VALUE
    ensures OwnBlock(s, objs[k]) ==> s.blocks[objs[k]].id in s.refs && !Shared(s, objs[k])
  {
    var bs := s.cfg.blockSize;
    assert SlotOk(s, objs, tokens, k);
    var t := s.blocks[objs[k]].tokens;
    ChunkReplace(tokens, p, 0, bs, k, k);
    ChunkAt(tokens, bs, k, p - k * bs);
    ChunkSuffixed(tokens, bs, k);
    ChunkSize(tokens, bs, k);
    assert t[p - k * bs] == PLACEHOLDER_TOKEN;
    assert t[|t| - 1] == PLACEHOLDER_TOKEN;
  }

  /** The tokens once the first `i` of the placeholders behind `start` are replaced. */
  function Refill(tokens: seq<TokenId>, start: nat, ts: seq<TokenId>, i: nat): seq<TokenId>
    requires start + i <= |tokens| && i <= |ts|
  {
    tokens[..start] + ts[..i] + tokens[start + i..]
  }

  lemma FilledStep(tokens: seq<TokenId>, start: nat, ts: seq<TokenId>, i: nat)
    requires start + i < |tokens| && i < |ts|
    ensures Refill(tokens, start, ts, i)[start + i := ts[i]] == Refill(tokens, start, ts, i + 1)
    ensures Refill(tokens, start, ts, i)[start + i] == tokens[start + i]
    ensures start + i > 0 ==>
      Refill(tokens, start, ts, i)[start + i - 1] == if i == 0 then tokens[start - 1] else ts[i - 1]
    ensures |Refill(tokens, start, ts, i)| == |tokens|
  {
  }

  /** `k` and `j` are the block and the offset of position `p`. */
  predicate Position(p: nat, blockSize: nat, k: nat, j: nat) {
    j < blockSize && k * blockSize + j == p
  }

  lemma PositionStep(start: nat, blockSize: nat, i: nat)
    requires blockSize > 0
    ensures Position(start + i, blockSize, start / blockSize + (start % blockSize + i) / blockSize,
      (start % blockSize + i) % blockSize)
  {
    BlockBounds(start, blockSize);
    BlockBounds(start % blockSize + i, blockSize);
    var a, b := start / blockSize, (start % blockSize + i) / blockSize;
    assert (a + b) * blockSize == a * blockSize + b * blockSize;
  }

  lemma PositionBefore(start: nat, blockSize: nat)
    requires blockSize > 0 && start > 0
    ensures
      var k, j := start / blockSize, start % blockSize;
      if j == 0 then k > 0 && Position(start - 1, blockSize, k - 1, blockSize - 1)
      else Position(start - 1, blockSize, k, j - 1)
  {
    BlockBounds(start, blockSize);
    var k := start / blockSize;
    if start % blockSize == 0 { assert k * blockSize == (k - 1) * blockSize + blockSize; }
  }

  lemma PositionWithin(p: nat, blockSize: nat, k: nat, j: nat, blocks: nat)
    requires Position(p, blockSize, k, j) && p < blocks * blockSize
    ensures k < blocks && k * blockSize <= p < (k + 1) * blockSize
  {
    if blocks <= k { Scaled(blocks, k, blockSize); }
    assert (k + 1) * blockSize == k * blockSize + blockSize;
  }

  /** Position `start` is where replacing may begin. */
  predicate MayRefill(tokens: seq<TokenId>, start: nat) {
    0 < start < |tokens| && tokens[start] == PLACEHOLDER_TOKEN && tokens[start - 1] != PLACEHOLDER_TOKEN
  }

  lemma ChunkPosition(tokens: seq<TokenId>, blockSize: nat, p: nat, k: nat, j: nat)
    requires blockSize > 0 && Position(p, blockSize, k, j) && p < |tokens|
    ensures j < |Chunk(tokens, blockSize, k)| && Chunk(tokens, blockSize, k)[j] == tokens[p]
  {
    assert (k + 1) * blockSize == k * blockSize + blockSize;
    Scaled(k, k + 1, blockSize);
  }

  lemma FirstPlaceholderAt(n: seq<TokenId>, start: nat, ts: seq<TokenId>, i: nat, blockSize: nat, k: nat, j: nat)
    requires MayRefill(n, start) && Suffixed(n) && i < |ts| && start + i < |n|
    requires forall m :: 0 <= m <= i ==> ts[m] != PLACEHOLDER_TOKEN
    requires Position(start + i, blockSize, k, j)
    ensures FirstPlaceholder(Refill(n, start, ts, i), blockSize, k * blockSize + j, k)
  {
    FilledStep(n, start, ts, i);
    assert (k + 1) * blockSize == k * blockSize + blockSize;
    if i > 0 { assert n[start + i] == PLACEHOLDER_TOKEN; }
  }

  lemma RefillSize(tokens: seq<TokenId>, start: nat, ts: seq<TokenId>, i: nat)
    requires start + i <= |tokens| && i <= |ts|
    ensures |Refill(tokens, start, ts, i)| == |tokens|
  {
  }

  lemma PositionSum(p: nat, blockSize: nat, k: nat, j: nat)
    requires Position(p, blockSize, k, j)
    ensures k * blockSize + j == p
  {
  }

  lemma RefilledKept(s0: State, s: State, t: State, objs: seq<Obj>, k: nat)
    requires Kept(s0, s, objs) && k < |objs| && Refilled(s, t, objs[k])
    ensures Kept(s0, t, objs)
  {
    KeptThen(s0, s, t, objs, objs[k]);
  }

  lemma MinIs(a: int, b: int)
    ensures Min(a, b) == if a < b then a else b
  {
  }

  lemma RefillNone(tokens: seq<TokenId>, start: nat, ts: seq<TokenId>)
    requires start <= |tokens|
    ensures Refill(tokens, start, ts, 0) == tokens
  {
  }

  /** Once the first placeholder is known to be at `start`, all behind it are placeholders too. */
  lemma RefillAt(tokens: seq<TokenId>, start: nat, i: nat)
    requires Suffixed(tokens) && 0 < start && start + i < |tokens|
    ensures MayRefill(tokens, start) ==> tokens[start + i] == PLACEHOLDER_TOKEN
    ensures tokens[start] == PLACEHOLDER_TOKEN && tokens[start - 1] != PLACEHOLDER_TOKEN ==> MayRefill(tokens, start)
    ensures MayRefill(tokens, start) ==> tokens[start] == PLACEHOLDER_TOKEN && tokens[start - 1] != PLACEHOLDER_TOKEN
  {
  }

  // ---------- what a table shows its reader ----------

  /** A table reads as its tokens, in the shape full*, at most one partial, empty*. */
  lemma TableReads(s: State, objs: seq<Obj>, tokens: seq<TokenId>)
    requires s.cfg.blockSize > 0 && Tabled(s, objs, tokens)
    ensures Concat(seq(|objs|, i requires 0 <= i < |objs| => s.blocks[objs[i]].tokens)) == tokens
    ensures forall i :: 0 <= i < |objs| ==> |s.blocks[objs[i]].tokens| == ShareOf(|tokens|, s.cfg.blockSize, i)
  {
    var bs := s.cfg.blockSize;
    forall i | 0 <= i < |objs|
      ensures s.blocks[objs[i]].tokens == Chunk(tokens, bs, i) && |s.blocks[objs[i]].tokens| == ShareOf(|tokens|, bs, i)
    {
      assert SlotOk(s, objs, tokens, i);
      ChunkShare(tokens, bs, i);
    }
    assert seq(|objs|, i requires 0 <= i < |objs| => s.blocks[objs[i]].tokens) == Chunks(tokens, bs, |objs|);
    ConcatChunks(tokens, bs, |objs|);
  }

  /** Read through the ids on the device, block `k` of a table shows its own known tokens, behind the
      blocks before it in this very table, whoever else shares those ids. */
  lemma TableReadsThrough(s: State, objs: seq<Obj>, tokens: seq<TokenId>, k: nat)
    requires Inv(s) && Tabled(s, objs, tokens) && k < |objs| && Known(Chunk(tokens, s.cfg.blockSize, k)) != []
    ensures s.blocks[objs[k]].id in s.memory
    ensures s.memory[s.blocks[objs[k]].id]
         == Link(Before(s, objs, k), Known(Chunk(tokens, s.cfg.blockSize, k)), s.blocks[objs[k]].extra)
  {
    assert SlotOk(s, objs, tokens, k);
    BlockFact(s, None, objs[k]);
  }
}
