/** What a block table stands for: one token list, cut into blocks that continue each other. */
module BlockTableSpec {
  import opened Basics
  import opened Arithmetic
  import opened Chunking
  import opened PrefixChain
  import opened PrefixCacheSpec
  import opened PrefixCacheSteps
  import opened PrefixCacheOperations

  /** The chain before block `i` of the table. */
  ghost function Before(s: State, objs: seq<Obj>, i: nat): Chain
    requires i <= |objs| && (i > 0 ==> objs[i - 1] in s.blocks)
  {
    if i == 0 then Root else ChainOf(s.blocks[objs[i - 1]])
  }

  ghost predicate SlotOk(s: State, objs: seq<Obj>, tokens: seq<TokenId>, i: nat)
    requires i < |objs| && forall k :: 0 <= k < |objs| ==> objs[k] in s.blocks
  {
    var b := s.blocks[objs[i]];
    && b.tokens == Chunk(tokens, s.cfg.blockSize, i)
    && (Known(b.tokens) != [] ==> b.before == Before(s, objs, i))
  }

  /** The table `objs` holds exactly `tokens`: full blocks, at most one partial, then empty ones. */
  ghost predicate Tabled(s: State, objs: seq<Obj>, tokens: seq<TokenId>) {
    && |tokens| <= |objs| * s.cfg.blockSize
    && Suffixed(tokens)
    && (forall k :: 0 <= k < |objs| ==> objs[k] in s.blocks)
    && (forall j, k :: 0 <= j < k < |objs| ==> objs[j] != objs[k])
    && (forall k :: 0 <= k < |objs| ==> SlotOk(s, objs, tokens, k))
  }

  // ---------- placeholders ----------

  lemma ChunkSuffixed(tokens: seq<TokenId>, blockSize: nat, i: nat)
    requires blockSize > 0 && Suffixed(tokens)
    ensures Suffixed(Chunk(tokens, blockSize, i))
  {
    Scaled(i, i + 1, blockSize);
  }

  lemma {:induction false} KnownFirst(t: seq<TokenId>)
    requires Known(t) != []
    ensures t != [] && (Suffixed(t) ==> t[0] != PLACEHOLDER_TOKEN)
  {
    if t != [] && t[|t| - 1] == PLACEHOLDER_TOKEN {
      var front := t[..|t| - 1];
      KnownFirst(front);
      if Suffixed(t) { assert Suffixed(front); assert front[0] == t[0]; }
    }
  }

  /** The chain of a full, placeholder-free block of a table is ready. */
  lemma FullBlockReady(s: State, objs: seq<Obj>, tokens: seq<TokenId>, i: nat)
    requires Inv(s) && Tabled(s, objs, tokens) && i < |objs|
    requires (i + 1) * s.cfg.blockSize <= |tokens| && tokens[(i + 1) * s.cfg.blockSize - 1] != PLACEHOLDER_TOKEN
    ensures Ready(s.cfg.blockSize, ChainOf(s.blocks[objs[i]]))
  {
    var bs := s.cfg.blockSize;
    var b := s.blocks[objs[i]];
    assert SlotOk(s, objs, tokens, i);
    ChunkSize(tokens, bs, i);
    ChunkAt(tokens, bs, i, bs - 1);
    KnownWhole(s.cfg, b);
    BlockFact(s, None, objs[i]);
  }

  /** When block `i` gets its first known token, everything before it is complete. */
  lemma PrefixReady(s: State, objs: seq<Obj>, tokens: seq<TokenId>, i: nat, longer: seq<TokenId>)
    requires Inv(s) && Tabled(s, objs, tokens) && i <= |objs|
    requires Suffixed(longer) && tokens <= longer && i * s.cfg.blockSize <= |tokens|
    requires i * s.cfg.blockSize < |longer| && longer[i * s.cfg.blockSize] != PLACEHOLDER_TOKEN
    ensures i == 0 || Ready(s.cfg.blockSize, Before(s, objs, i))
  {
    if i > 0 {
      var p := i * s.cfg.blockSize;
      assert (i - 1 + 1) * s.cfg.blockSize == p && p >= s.cfg.blockSize by { Scaled(1, i, s.cfg.blockSize); }
      assert longer[p - 1] != PLACEHOLDER_TOKEN;
      assert tokens[p - 1] == longer[p - 1];
      FullBlockReady(s, objs, tokens, i - 1);
    }
  }

  /** Before a block with known tokens there are only blocks with known tokens. */
  lemma KnownAllBefore(tokens: seq<TokenId>, blockSize: nat, k: nat)
    requires blockSize > 0 && Suffixed(tokens) && k > 0 && Known(Chunk(tokens, blockSize, k)) != []
    ensures Known(Chunk(tokens, blockSize, k - 1)) != []
  {
    var c := Chunk(tokens, blockSize, k);
    ChunkSuffixed(tokens, blockSize, k);
    KnownFirst(c);
    ChunkAt(tokens, blockSize, k, 0);
    assert k * blockSize < |tokens|;
    assert (k - 1) * blockSize == k * blockSize - blockSize;
    ChunkSize(tokens, blockSize, k - 1);
    ChunkAt(tokens, blockSize, k - 1, blockSize - 1);
  }

  /** The chain of block `k`, if that has a known token, is that of `k + 1` blocks. */
  lemma {:induction false} SpanIs(s: State, objs: seq<Obj>, tokens: seq<TokenId>, k: nat, size: nat)
    requires Tabled(s, objs, tokens) && s.cfg.blockSize > 0 && k < |objs| && Known(s.blocks[objs[k]].tokens) != []
    ensures Span(size, ChainOf(s.blocks[objs[k]])) == (k + 1) * size
    decreases k
  {
    assert SlotOk(s, objs, tokens, k);
    assert (k + 1) * size == k * size + size;
    if k > 0 {
      KnownAllBefore(tokens, s.cfg.blockSize, k);
      assert SlotOk(s, objs, tokens, k - 1);
      SpanIs(s, objs, tokens, k - 1, size);
    }
  }

  // ---------- the chain of a sequence ----------

  /** The chain of the first `k` chunks of a sequence under one extra hash. */
  function SeqChain(tokens: seq<TokenId>, blockSize: nat, extra: HashValue, k: nat): Chain {
    if k == 0 then Root else Link(SeqChain(tokens, blockSize, extra, k - 1), Chunk(tokens, blockSize, k - 1), extra)
  }

  /** Whole, known chunks make a chain that may be hashed. */
  lemma {:induction false} SeqChainReady(tokens: seq<TokenId>, blockSize: nat, extra: HashValue, k: nat)
    requires blockSize > 0 && k * blockSize <= |tokens| && PLACEHOLDER_TOKEN !in tokens[..k * blockSize]
    ensures k > 0 ==> Ready(blockSize, SeqChain(tokens, blockSize, extra, k))
  {
    hide Chunk;
    if k > 0 {
      Scaled(k - 1, k, blockSize);
      assert (k - 1 + 1) * blockSize == k * blockSize;
      assert tokens[..k * blockSize][..(k - 1) * blockSize] == tokens[..(k - 1) * blockSize];
      LastKnown(tokens, blockSize, k - 1);
      SeqChainReady(tokens, blockSize, extra, k - 1);
    }
  }

  lemma LastKnown(tokens: seq<TokenId>, blockSize: nat, k: nat)
    requires blockSize > 0 && (k + 1) * blockSize <= |tokens| && PLACEHOLDER_TOKEN !in tokens[..(k + 1) * blockSize]
    ensures |Chunk(tokens, blockSize, k)| == blockSize
      && Chunk(tokens, blockSize, k)[blockSize - 1] != PLACEHOLDER_TOKEN
  {
    ChunkSize(tokens, blockSize, k);
    ChunkAt(tokens, blockSize, k, blockSize - 1);
    assert (k + 1) * blockSize == k * blockSize + blockSize;
    assert tokens[..(k + 1) * blockSize][k * blockSize + (blockSize - 1)] == tokens[k * blockSize + (blockSize - 1)];
  }

  // ---------- appending ----------

  /** The next tokens may go into the block they belong to. */
  lemma MayAppendNext(s: State, objs: seq<Obj>, tokens: seq<TokenId>, ts: seq<TokenId>, k: nat)
    requires Inv(s) && Tabled(s, objs, tokens) && Suffixed(tokens + ts) && k < |objs|
    requires Continues(tokens, ts, s.cfg.blockSize, k)
    ensures MayAppend(s, objs[k], Before(s, objs, k), ts)
    ensures |s.blocks[objs[k]].tokens| == |tokens| - k * s.cfg.blockSize
  {
    var bs := s.cfg.blockSize;
    var b := s.blocks[objs[k]];
    assert SlotOk(s, objs, tokens, k);
    ChunkAppend(tokens, ts, bs, k, k);
    ChunkSuffixed(tokens + ts, bs, k);
    var all := b.tokens + ts;
    if Known(all) != [] {
      KnownFirst(all);
      ChunkAt(tokens + ts, bs, k, 0);
      PrefixReady(s, objs, tokens, k, tokens + ts);
    }
  }

  /** After the append the table holds the longer list. */
  lemma AppendedTabled(s: State, t: State, objs: seq<Obj>, tokens: seq<TokenId>, ts: seq<TokenId>, k: nat)
    requires Tabled(s, objs, tokens) && Suffixed(tokens + ts) && k < |objs|
    requires Continues(tokens, ts, s.cfg.blockSize, k)
    requires Places(s, t, objs[k], Appended(s.blocks[objs[k]], Before(s, objs, k), ts))
    ensures Tabled(t, objs, tokens + ts)
  {
    Scaled(k + 1, |objs|, s.cfg.blockSize);
    forall i | 0 <= i < |objs| ensures SlotOk(t, objs, tokens + ts, i) {
      assert SlotOk(s, objs, tokens, i);
      ChunkAppend(tokens, ts, s.cfg.blockSize, k, i);
      if i <= k { assert i > 0 ==> t.blocks[objs[i - 1]] == s.blocks[objs[i - 1]]; }
    }
  }

  // ---------- allocating ----------

  /** The next whole chunk, or an empty block, may be placed behind the table. */
  lemma MayPlaceNext(s: State, objs: seq<Obj>, tokens: seq<TokenId>, o: Obj, ts: seq<TokenId>, extra: HashValue)
    requires Inv(s) && Tabled(s, objs, tokens) && o !in s.blocks && Suffixed(tokens + ts)
    requires |ts| <= s.cfg.blockSize && (ts != [] ==> |tokens| == |objs| * s.cfg.blockSize)
    ensures MayPlace(s, o, Before(s, objs, |objs|), ts, extra)
  {
    assert Suffixed(ts) by {
      forall i, j | 0 <= i < j < |ts| && ts[i] == PLACEHOLDER_TOKEN ensures ts[j] == PLACEHOLDER_TOKEN {
        assert (tokens + ts)[|tokens| + i] == ts[i] && (tokens + ts)[|tokens| + j] == ts[j];
      }
    }
    if Known(ts) != [] {
      KnownFirst(ts);
      assert (tokens + ts)[|tokens|] == ts[0];
      PrefixReady(s, objs, tokens, |objs|, tokens + ts);
    }
  }

  lemma PlacedTabled(s: State, t: State, objs: seq<Obj>, tokens: seq<TokenId>, o: Obj, ts: seq<TokenId>,
                     extra: HashValue)
    requires s.cfg.blockSize > 0 && Tabled(s, objs, tokens) && o !in s.blocks && Suffixed(tokens + ts)
    requires |ts| <= s.cfg.blockSize && (ts != [] ==> |tokens| == |objs| * s.cfg.blockSize)
    requires Places(s, t, o, Block(Before(s, objs, |objs|), ts, extra, 0))
    ensures Tabled(t, objs + [o], tokens + ts)
  {
    hide Chunk, Known;
    var n := |objs|;
    var objs' := objs + [o];
    RoomForOne(|tokens|, |ts|, n, s.cfg.blockSize);
    assert |objs'| == n + 1;
    forall i | 0 <= i < |objs'| ensures SlotOk(t, objs', tokens + ts, i) {
      ChunkBehind(tokens, ts, s.cfg.blockSize, n, i);
      if i < n { assert SlotOk(s, objs, tokens, i); }
    }
  }

  lemma RoomForOne(tokens: nat, more: nat, blocks: nat, blockSize: nat)
    requires tokens <= blocks * blockSize && more <= blockSize
    ensures tokens + more <= (blocks + 1) * blockSize
  {
  }

  /** What is put behind `n` blocks is the next chunk and leaves the others alone. */
  lemma ChunkBehind(tokens: seq<TokenId>, ts: seq<TokenId>, blockSize: nat, n: nat, i: nat)
    requires |tokens| <= n * blockSize && |ts| <= blockSize && (ts != [] ==> |tokens| == n * blockSize) && i <= n
    ensures Chunk(tokens + ts, blockSize, i) == if i < n then Chunk(tokens, blockSize, i) else ts
  {
    Scaled(i, i + 1, blockSize);
    assert (n + 1) * blockSize == n * blockSize + blockSize;
    if i < n { Scaled(i + 1, n, blockSize); }
  }

  // ---------- forking ----------

  lemma {:induction false} WithCopiesAt(m: map<Obj, Block>, sources: seq<Obj>, copies: seq<Obj>, k: nat)
    requires |sources| == |copies| && k < |sources|
    requires forall j :: 0 <= j < |sources| ==> sources[j] in m && copies[j] !in m
    requires forall i, j :: 0 <= i < j < |copies| ==> copies[i] != copies[j]
    ensures copies[k] in WithCopies(m, sources, copies) && WithCopies(m, sources, copies)[copies[k]] == m[sources[k]]
    decreases |sources|
  {
    var m' := m[copies[0] := m[sources[0]]];
    if k == 0 {
      WithCopiesKeeps(m', sources[1..], copies[1..], copies[0]);
    } else {
      WithCopiesAt(m', sources[1..], copies[1..], k - 1);
    }
  }

  lemma {:induction false} WithCopiesKeeps(m: map<Obj, Block>, sources: seq<Obj>, copies: seq<Obj>, p: Obj)
    requires |sources| == |copies| && p in m && p !in copies
    requires forall j :: 0 <= j < |sources| ==> sources[j] in m
    ensures p in WithCopies(m, sources, copies) && WithCopies(m, sources, copies)[p] == m[p]
    decreases |sources|
  {
    if sources != [] {
      WithCopiesKeeps(m[copies[0] := m[sources[0]]], sources[1..], copies[1..], p);
    }
  }

  /** Both the forked table and its source hold the tokens. */
  lemma ForkedTabled(s: State, t: State, objs: seq<Obj>, copies: seq<Obj>, tokens: seq<TokenId>)
    requires Tabled(s, objs, tokens) && |copies| == |objs| && t.cfg == s.cfg
    requires forall j :: 0 <= j < |copies| ==> copies[j] !in s.blocks
    requires forall i, j :: 0 <= i < j < |copies| ==> copies[i] != copies[j]
    requires t.blocks == WithCopies(s.blocks, objs, copies)
    ensures Tabled(t, copies, tokens) && Tabled(t, objs, tokens)
    ensures forall p :: p in s.blocks ==> p in t.blocks && t.blocks[p] == s.blocks[p]
    ensures forall k :: 0 <= k < |objs| ==> t.blocks[copies[k]].id == s.blocks[objs[k]].id
  {
    forall p | p in s.blocks ensures p in t.blocks && t.blocks[p] == s.blocks[p] {
      WithCopiesKeeps(s.blocks, objs, copies, p);
    }
    forall k | 0 <= k < |objs| ensures copies[k] in t.blocks && t.blocks[copies[k]] == s.blocks[objs[k]] {
      WithCopiesAt(s.blocks, objs, copies, k);
    }
    forall i | 0 <= i < |objs| ensures SlotOk(t, copies, tokens, i) && SlotOk(t, objs, tokens, i) {
      assert SlotOk(s, objs, tokens, i);
    }
  }

  // ---------- replacing a placeholder ----------

  lemma ReplaceSuffixed(tokens: seq<TokenId>, p: nat, token: TokenId)
    requires Suffixed(tokens) && p < |tokens| && token != PLACEHOLDER_TOKEN
    requires p > 0 ==> tokens[p - 1] != PLACEHOLDER_TOKEN
    ensures Suffixed(tokens[p := token])
  {
    assert forall i :: 0 <= i < p ==> tokens[i] != PLACEHOLDER_TOKEN;
    var u := tokens[p := token];
    forall i, j | 0 <= i < j < |u| && u[i] == PLACEHOLDER_TOKEN ensures u[j] == PLACEHOLDER_TOKEN {
      assert i > p;
    }
  }

  lemma SliceReplace(tokens: seq<TokenId>, p: nat, token: TokenId, lo: nat, hi: nat)
    requires lo <= hi && p < |tokens|
    ensures Slice(tokens[p := token], lo, hi)
         == if lo <= p < hi then Slice(tokens, lo, hi)[p - lo := token] else Slice(tokens, lo, hi)
  {
  }

  lemma ChunkReplace(tokens: seq<TokenId>, p: nat, token: TokenId, blockSize: nat, k: nat, i: nat)
    requires k * blockSize <= p < (k + 1) * blockSize && p < |tokens|
    ensures i == k ==> p - k * blockSize < |Chunk(tokens, blockSize, i)|
    ensures i == k ==>
      Chunk(tokens[p := token], blockSize, i) == Chunk(tokens, blockSize, i)[p - k * blockSize := token]
    ensures i != k ==> Chunk(tokens[p := token], blockSize, i) == Chunk(tokens, blockSize, i)
  {
    Scaled(i, i + 1, blockSize);
    if i < k { Scaled(i + 1, k, blockSize); } else if i > k { Scaled(k + 1, i, blockSize); }
    SliceReplace(tokens, p, token, i * blockSize, (i + 1) * blockSize);
  }

  /** Position `p` of the table is its first placeholder, in block `k`. */
  predicate FirstPlaceholder(tokens: seq<TokenId>, blockSize: nat, p: nat, k: nat) {
    && p < |tokens| && tokens[p] == PLACEHOLDER_TOKEN && (p > 0 ==> tokens[p - 1] != PLACEHOLDER_TOKEN)
    && k * blockSize <= p < (k + 1) * blockSize
  }

  /** The first placeholder of the table may be replaced, unless its block is shared. */
  lemma MayReplaceFirst(s: State, objs: seq<Obj>, tokens: seq<TokenId>, p: nat, k: nat, token: TokenId)
    requires Inv(s) && Tabled(s, objs, tokens) && k < |objs|
    requires FirstPlaceholder(tokens, s.cfg.blockSize, p, k) && token != PLACEHOLDER_TOKEN
    requires s.blocks[objs[k]].id in s.refs && !Shared(s, objs[k])
    ensures MayReplace(s, objs[k], Before(s, objs, k), p - k * s.cfg.blockSize, token)
  {
    var bs := s.cfg.blockSize;
    var u := tokens[p := token];
    assert SlotOk(s, objs, tokens, k);
    ChunkReplace(tokens, p, token, bs, k, k);
    ChunkAt(tokens, bs, k, p - k * bs);
    ReplaceSuffixed(tokens, p, token);
    ChunkSuffixed(u, bs, k);
    ChunkSize(u, bs, k);
    if k > 0 { BeforePlaceholderReady(s, objs, tokens, p, k); }
  }

  lemma BeforePlaceholderReady(s: State, objs: seq<Obj>, tokens: seq<TokenId>, p: nat, k: nat)
    requires Inv(s) && Tabled(s, objs, tokens) && 0 < k < |objs|
    requires FirstPlaceholder(tokens, s.cfg.blockSize, p, k)
    ensures Ready(s.cfg.blockSize, Before(s, objs, k))
  {
    var bs := s.cfg.blockSize;
    Scaled(1, k, bs);
    assert (k - 1 + 1) * bs == k * bs;
    if k * bs < p { assert tokens[k * bs - 1] != PLACEHOLDER_TOKEN; }
    FullBlockReady(s, objs, tokens, k - 1);
  }

  lemma ReplacedTabled(s: State, t: State, objs: seq<Obj>, tokens: seq<TokenId>, p: nat, k: nat, token: TokenId)
    requires Tabled(s, objs, tokens) && k < |objs|
    requires FirstPlaceholder(tokens, s.cfg.blockSize, p, k) && token != PLACEHOLDER_TOKEN
    requires p - k * s.cfg.blockSize < |s.blocks[objs[k]].tokens|
    requires Places(s, t, objs[k], Replaced(s.blocks[objs[k]], Before(s, objs, k), p - k * s.cfg.blockSize, token))
    ensures Tabled(t, objs, tokens[p := token])
  {
    var u := tokens[p := token];
    ReplaceSuffixed(tokens, p, token);
    forall i | 0 <= i < |objs| ensures SlotOk(t, objs, u, i) {
      assert SlotOk(s, objs, tokens, i);
      ChunkReplace(tokens, p, token, s.cfg.blockSize, k, i);
      if i > k { LaterUnknown(tokens, p, s.cfg.blockSize, k, i); }
      else { assert i > 0 ==> t.blocks[objs[i - 1]] == s.blocks[objs[i - 1]]; }
    }
  }

  /** Behind the first placeholder nothing is known. */
  lemma LaterUnknown(tokens: seq<TokenId>, p: nat, blockSize: nat, k: nat, i: nat)
    requires Suffixed(tokens) && FirstPlaceholder(tokens, blockSize, p, k) && i > k
    ensures Known(Chunk(tokens, blockSize, i)) == []
  {
    var c := Chunk(tokens, blockSize, i);
    if Known(c) != [] {
      Scaled(k + 1, i, blockSize);
      ChunkSuffixed(tokens, blockSize, i);
      KnownFirst(c);
      ChunkAt(tokens, blockSize, i, 0);
    }
  }
}
