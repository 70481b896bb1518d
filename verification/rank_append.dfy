/** Appending a decoded token to a table whose blocks are dealt over several ranks. */
module RankAppend {
  import opened Basics
  import opened Arithmetic
  import opened Chunking
  import opened PrefixChain
  import opened LruEvictor
  import opened PrefixCacheSpec
  import opened PrefixCacheSteps
  import opened PrefixCacheOperations
  import opened PrefixCacheAllocator
  import opened BlockTableSpec
  import opened BlockTableSteps
  import opened BlockTables
  import opened AppendAdmission
  import opened RankPlacement
  import opened CacheReuse
  import opened RankDecode

  // ---------- one rank ----------

  ghost function ChainsOf(row: seq<BlockObj>): (chains: seq<Chain>)
    reads row
    ensures |chains| == |row| && forall k :: 0 <= k < |row| ==> chains[k] == row[k].Chain()
  {
    if row == [] then [] else ChainsOf(row[..|row| - 1]) + [row[|row| - 1].Chain()]
  }

  /** The blocks of one rank hold `list`, block by block. */
  ghost predicate RowParts(alloc: PrefixCacheBlockAllocator, row: seq<BlockObj>, list: seq<TokenId>, size: nat)
    reads alloc, alloc.evictor, alloc.live.Values, row
  {
    && alloc.Valid() && CollisionFree(alloc.cfg.mix) && alloc.cfg.blockSize == size > 0
    && PLACEHOLDER_TOKEN !in list && |list| <= |row| * size
    && (forall k :: 0 <= k < |row| ==> alloc.Has(row[k]) && row[k].tokens == Chunk(list, size, k))
    && (forall j, k :: 0 <= j < k < |row| ==> row[j] != row[k])
  }

  /** ... all but the last full, and that not empty. */
  ghost predicate RowHeld(alloc: PrefixCacheBlockAllocator, row: seq<BlockObj>, list: seq<TokenId>, size: nat)
    reads alloc, alloc.evictor, alloc.live.Values, row
  {
    RowParts(alloc, row, list, size) && FitsRow(|row|, |list|, size)
  }

  predicate FitsRow(blocks: nat, length: nat, size: nat) {
    length <= blocks * size && (blocks > 0 ==> (blocks - 1) * size < length)
  }

  /** The block that takes the next token is nobody else's, behind what its tokens were computed behind. */
  ghost predicate OpenOk(alloc: PrefixCacheBlockAllocator, b: BlockObj, size: nat)
    reads alloc, alloc.evictor, alloc.live.Values, b, b.prev
  {
    && alloc.Has(b) && b.address in alloc.Abs().blocks && Alone(alloc.Abs(), b.address)
    && (Behind(b.prev).Root? || Ready(size, Behind(b.prev)))
    && b.before == Behind(b.prev)
  }

  /** No other block is touched. */
  ghost predicate OthersSame(s: State, t: State, o: Obj) {
    && (forall p :: p in s.blocks && p != o ==> p in t.blocks && t.blocks[p] == s.blocks[p])
    && (forall p :: p in t.blocks ==> p in s.blocks || p == o)
  }

  /** A full block of the row is complete. */
  lemma FullRowReady(alloc: PrefixCacheBlockAllocator, row: seq<BlockObj>, list: seq<TokenId>, size: nat, k: nat)
    requires RowParts(alloc, row, list, size) && k < |row| && (k + 1) * size <= |list|
    ensures Ready(size, row[k].Chain())
  {
    var b := row[k];
    assert alloc.Abs().blocks[b.address] == b.Value();
    ChunkSize(list, size, k);
    ChunkAt(list, size, k, size - 1);
    assert (k + 1) * size == k * size + size;
    assert list[k * size + (size - 1)] in list;
    KnownWhole(alloc.cfg, b.Value());
    BlockFact(alloc.Abs(), None, b.address);
  }

  lemma PlainKnown(ts: seq<TokenId>)
    requires PLACEHOLDER_TOKEN !in ts
    ensures Known(ts) == ts && Suffixed(ts)
  {
    if ts != [] { assert ts[|ts| - 1] in ts; }
  }

  /** The next token may go into the open block. */
  lemma MayAppendToken(s: State, o: Obj, before: Chain, token: TokenId)
    requires Inv(s) && o in s.blocks && token != PLACEHOLDER_TOKEN && PLACEHOLDER_TOKEN !in s.blocks[o].tokens
    requires |s.blocks[o].tokens| < s.cfg.blockSize && s.blocks[o].before == before
    requires before.Root? || Ready(s.cfg.blockSize, before)
    ensures MayAppend(s, o, before, [token])
  {
    PlainKnown(s.blocks[o].tokens + [token]);
  }

  lemma RowFacts(alloc: PrefixCacheBlockAllocator, row: seq<BlockObj>, list: seq<TokenId>, size: nat)
    requires RowParts(alloc, row, list, size)
    ensures alloc.Valid() && Inv(alloc.Abs()) && alloc.Abs().cfg == alloc.cfg && alloc.cfg.blockSize == size > 0
    ensures CollisionFree(alloc.cfg.mix) && PLACEHOLDER_TOKEN !in list && |list| <= |row| * size
    ensures alloc.Abs().blocks.Keys == alloc.live.Keys
    ensures forall k :: 0 <= k < |row| ==>
      && alloc.Has(row[k]) && row[k].address in alloc.live && alloc.live[row[k].address] == row[k]
      && row[k].tokens == Chunk(list, size, k)
      && row[k].address in alloc.Abs().blocks && alloc.Abs().blocks[row[k].address] == row[k].Value()
    ensures forall j, k :: 0 <= j < k < |row| ==> row[j] != row[k]
  {
    assert alloc.Blocks().Keys == alloc.live.Keys;
  }

  lemma RowIs(alloc: PrefixCacheBlockAllocator, row: seq<BlockObj>, list: seq<TokenId>, size: nat)
    requires alloc.Valid() && CollisionFree(alloc.cfg.mix) && alloc.cfg.blockSize == size > 0
    requires PLACEHOLDER_TOKEN !in list && |list| <= |row| * size
    requires forall k :: 0 <= k < |row| ==>
      row[k].address in alloc.live && alloc.live[row[k].address] == row[k] && row[k].tokens == Chunk(list, size, k)
    requires forall j, k :: 0 <= j < k < |row| ==> row[j] != row[k]
    ensures RowParts(alloc, row, list, size)
    ensures forall k :: 0 <= k < |row| ==> alloc.Has(row[k])
  {
  }

  /** One token more reaches the open block only. */
  lemma TokenChunks(list: seq<TokenId>, token: TokenId, blocks: nat, size: nat)
    requires blocks > 0 && (blocks - 1) * size <= |list| < blocks * size && token != PLACEHOLDER_TOKEN
    requires PLACEHOLDER_TOKEN !in list
    ensures forall k :: 0 <= k < blocks ==>
      Chunk(list + [token], size, k) == Chunk(list, size, k) + (if k == blocks - 1 then [token] else [])
    ensures |Chunk(list, size, blocks - 1)| < size && PLACEHOLDER_TOKEN !in Chunk(list, size, blocks - 1)
    ensures |Chunk(list, size, blocks - 1)| == |list| - (blocks - 1) * size
    ensures PLACEHOLDER_TOKEN !in list + [token] && |list + [token]| <= blocks * size
  {
    assert (blocks - 1 + 1) * size == blocks * size && blocks * size == (blocks - 1) * size + size;
    forall k | 0 <= k < blocks
      ensures Chunk(list + [token], size, k) == Chunk(list, size, k) + (if k == blocks - 1 then [token] else [])
    {
      ChunkAppend(list, [token], size, blocks - 1, k);
    }
  }

  /** The token goes into the open block, which is the last. It needs no id and cannot fail. */
  method AppendToSpRank(alloc: PrefixCacheBlockAllocator, row: seq<BlockObj>, numFull: nat, token: TokenId, size: nat,
                        ghost list: seq<TokenId>) returns (r: Result<()>)
    requires RowParts(alloc, row, list, size) && numFull == |list|
    requires row != [] && (|row| - 1) * size <= |list| < |row| * size
    requires OpenOk(alloc, row[|row| - 1], size) && token != PLACEHOLDER_TOKEN
    modifies alloc, alloc.evictor, row[|row| - 1]
    ensures r.Ok? && RowHeld(alloc, row, list + [token], size) && alloc.live == old(alloc.live)
    ensures |list| + 1 < |row| * size ==> OpenOk(alloc, row[|row| - 1], size)
    ensures OthersSame(old(alloc.Abs()), alloc.Abs(), row[|row| - 1].address)
    ensures ChainsOf(row) == Lengthened(old(ChainsOf(row)), size, token, row[|row| - 1].extra)
  {
    hide *;
    OpenIndex(numFull, |row|, size);
    var b := row[numFull / size];
    ghost var s, before, had, tokens := alloc.Abs(), Behind(b.prev), ChainsOf(row), b.tokens;
    NotItsOwn(b);
    ChainIs(b);
    RowFacts(alloc, row, list, size);
    ValueIs(alloc, b);
    OpenFacts(alloc, b, size);
    TokenChunks(list, token, |row|, size);
    MayAppendToken(s, b.address, before, token);
    ghost var pick;
    r, pick := alloc.AppendTokenIds(b, [token]);
    FilledOpen(s, b.address, before, token, if r.Ok? then Ok(alloc.Abs()) else Err(r.error));
    ValueIs(alloc, b);
    RowIs(alloc, row, list + [token], size);
    StillFits(alloc, row, list, token, size);
    OneLengthened(had, row, b, before, tokens, token, size);
    if |list| + 1 < |row| * size { StillOpen(alloc, b, before, size); }
  }

  lemma OpenIndex(numFull: nat, blocks: nat, size: nat)
    requires blocks > 0 && (blocks - 1) * size <= numFull < blocks * size
    ensures size > 0 && numFull / size == blocks - 1
  {
    assert (blocks - 1 + 1) * size == blocks * size;
    DivIs(numFull, size, blocks - 1);
  }

  lemma OneLengthened(had: seq<Chain>, row: seq<BlockObj>, b: BlockObj, before: Chain, tokens: seq<TokenId>,
                      token: TokenId, size: nat)
    requires |had| == |row| > 0 && b == row[|row| - 1] && |tokens| < size
    requires had[|row| - 1] == Link(before, tokens, b.extra) && b.before == before && b.tokens == tokens + [token]
    requires forall k :: 0 <= k < |row| - 1 ==> row[k].Chain() == had[k]
    ensures ChainsOf(row) == Lengthened(had, size, token, b.extra)
  {
    hide ChainsOf;
    assert had[..|row| - 1] + [b.Chain()] == ChainsOf(row);
  }

  /** A block whose chain continues that of its predecessor is not its own predecessor. */
  lemma NotItsOwn(b: BlockObj)
    ensures b.before == Behind(b.prev) ==> b.prev != b
  {
  }

  lemma ValueIs(alloc: PrefixCacheBlockAllocator, b: BlockObj)
    requires b.address in alloc.live && alloc.live[b.address] == b
    ensures b.address in alloc.Abs().blocks && alloc.Abs().blocks[b.address] == b.Value()
    ensures b.Value() == Block(b.before, b.tokens, b.extra, b.blockId) && alloc.Abs().cfg == alloc.cfg
  {
  }

  lemma StillFits(alloc: PrefixCacheBlockAllocator, row: seq<BlockObj>, list: seq<TokenId>, token: TokenId, size: nat)
    requires RowParts(alloc, row, list + [token], size) && row != []
    requires (|row| - 1) * size <= |list| < |row| * size
    ensures RowHeld(alloc, row, list + [token], size)
  {
  }

  lemma StillOpen(alloc: PrefixCacheBlockAllocator, b: BlockObj, before: Chain, size: nat)
    requires alloc.Has(b) && b.address in alloc.Abs().blocks && Alone(alloc.Abs(), b.address)
    requires (before.Root? || Ready(size, before)) && b.before == Behind(b.prev) == before
    ensures OpenOk(alloc, b, size)
  {
  }

  lemma OpenFacts(alloc: PrefixCacheBlockAllocator, b: BlockObj, size: nat)
    requires OpenOk(alloc, b, size)
    ensures alloc.Has(b) && b.address in alloc.Abs().blocks && Alone(alloc.Abs(), b.address)
    ensures Behind(b.prev).Root? || Ready(size, Behind(b.prev))
    ensures b.before == Behind(b.prev)
  {
  }

  /** How appending to an unshared block ends. */
  lemma FilledOpen(s: State, o: Obj, before: Chain, token: TokenId, r: Result<State>)
    requires Inv(s) && o in s.blocks && Alone(s, o) && s.blocks[o].id in s.refs
    requires AppendOutcome(s, o, Appended(s.blocks[o], before, [token]), r)
    ensures r.Ok? && OthersSame(s, r.value, o) && o in r.value.blocks && r.value.cfg == s.cfg
    ensures r.value.blocks[o].before == before && r.value.blocks[o].tokens == s.blocks[o].tokens + [token]
    ensures |s.blocks[o].tokens| + 1 < s.cfg.blockSize ==> Alone(r.value, o)
  {
    hide InvHeld;
    UsesOf(s, o);
  }

  /** A new, empty block behind the last one of the row, which is full. */
  method NewOpen(alloc: PrefixCacheBlockAllocator, row: seq<BlockObj>, extra: HashValue, ghost list: seq<TokenId>,
                 ghost size: nat) returns (r: Result<BlockObj>)
    requires RowParts(alloc, row, list, size) && |list| == |row| * size
    modifies alloc, alloc.evictor
    ensures r.Err? ==> r.error == Exhausted && Available(old(alloc.Abs())) == 0
    ensures r.Ok? ==> fresh(r.value) && r.value.prev == Last(row) && r.value.extra == extra
    ensures r.Ok? ==> r.value.address !in old(alloc.live) && alloc.live == old(alloc.live)[r.value.address := r.value]
    ensures r.Ok? ==> RowParts(alloc, row + [r.value], list, size) && OpenOk(alloc, r.value, size)
    ensures r.Ok? ==> OthersSame(old(alloc.Abs()), alloc.Abs(), r.value.address)
    ensures r.Ok? ==> r.value.before == old(Behind(Last(row))) && Available(old(alloc.Abs())) > 0
    ensures r.Ok? ==> ChainsOf(row + [r.value]) == old(ChainsOf(row)) + [Link(EndOf(old(ChainsOf(row))), [], extra)]
  {
    hide *;
    ghost var s, before, had := alloc.Abs(), Behind(Last(row)), ChainsOf(row);
    ghost var a := FreshAddress(alloc.live.Keys);
    RowFacts(alloc, row, list, size);
    EndOfRow(alloc, row, list, size);
    ChainsEnd(row);
    EmptyPlaces(s, a, before, extra);
    ghost var pick;
    r, pick := alloc.AllocateMutableBlock([], Last(row), extra, a);
    if r.Ok? {
      NewPlaced(s, a, Block(before, [], extra, 0), alloc.Abs());
      ValueIsAt(alloc, a);
      ValueIs(alloc, r.value);
      NoTokensYet(list, size, |row|);
      RowIs(alloc, row + [r.value], list, size);
      ChainIs(r.value);
      OneMoreChain(had, row, r.value, before, extra);
      StillOpen(alloc, r.value, before, size);
    } else {
      NotPlaced(s, a, Block(before, [], extra, 0), r.error);
    }
  }

  lemma ChainIs(b: BlockObj)
    ensures b.Chain() == Link(b.before, b.tokens, b.extra)
  {
  }

  lemma ChainsEnd(row: seq<BlockObj>)
    ensures EndOf(ChainsOf(row)) == Behind(Last(row))
  {
  }

  lemma OneMoreChain(had: seq<Chain>, row: seq<BlockObj>, b: BlockObj, before: Chain, extra: HashValue)
    requires |had| == |row| && forall k :: 0 <= k < |row| ==> row[k].Chain() == had[k]
    requires before == EndOf(had) && b.Chain() == Link(before, [], extra)
    ensures ChainsOf(row + [b]) == had + [Link(EndOf(had), [], extra)]
  {
  }

  lemma RoomIs(alloc: PrefixCacheBlockAllocator, row: seq<BlockObj>, list: seq<TokenId>, size: nat)
    requires RowHeld(alloc, row, list, size)
    ensures HasRoom(ChainsOf(row), size) <==> |list| < |row| * size
  {
    hide *;
    HeldFacts(alloc, row, list, size);
    RowFacts(alloc, row, list, size);
    RoomOf(row, size);
    if row != [] { LastChunk(list, |row|, size); }
  }

  lemma RoomOf(row: seq<BlockObj>, size: nat)
    ensures HasRoom(ChainsOf(row), size) <==> row != [] && |row[|row| - 1].tokens| < size
  {
    hide ChainsOf;
  }

  /** How full the last block is. */
  lemma LastChunk(list: seq<TokenId>, blocks: nat, size: nat)
    requires blocks > 0 && (blocks - 1) * size < |list| <= blocks * size
    ensures |Chunk(list, size, blocks - 1)| == |list| - (blocks - 1) * size
    ensures blocks * size == (blocks - 1) * size + size
  {
    assert (blocks - 1 + 1) * size == blocks * size;
  }

  /** A new block with its first token is what a row without room gets. */
  lemma NewLengthened(row: seq<Chain>, size: nat, token: TokenId, extra: HashValue)
    requires size > 0 && !HasRoom(row, size)
    ensures Lengthened(row + [Link(EndOf(row), [], extra)], size, token, extra) == Lengthened(row, size, token, extra)
  {
    assert (row + [Link(EndOf(row), [], extra)])[..|row|] == row && [] + [token] == [token];
  }

  lemma RoomLengthened(row: seq<Chain>, size: nat, token: TokenId, extra: HashValue, other: HashValue)
    requires HasRoom(row, size)
    ensures Lengthened(row, size, token, extra) == Lengthened(row, size, token, other)
  {
  }

  /** The chain behind a row of full blocks may be continued. */
  lemma EndOfRow(alloc: PrefixCacheBlockAllocator, row: seq<BlockObj>, list: seq<TokenId>, size: nat)
    requires RowParts(alloc, row, list, size) && |list| == |row| * size
    ensures Behind(Last(row)).Root? || Ready(size, Behind(Last(row)))
  {
    if row != [] { FullRowReady(alloc, row, list, size, |row| - 1); }
  }

  lemma EmptyPlaces(s: State, a: Obj, before: Chain, extra: HashValue)
    requires Inv(s) && a !in s.blocks
    ensures MayPlace(s, a, before, [], extra)
  {
  }

  lemma NewPlaced(s: State, a: Obj, b: Block, t: State)
    requires Inv(s) && a !in s.blocks && b.tokens == [] && PlaceOutcome(s, a, b, true, Ok(t))
    ensures OthersSame(s, t, a) && a in t.blocks && Alone(t, a) && Available(s) > 0
    ensures t.blocks[a].before == b.before && t.blocks[a].tokens == []
  {
    hide InvHeld;
    assert HashOf(s.cfg, b) == INVALID_HASH_VALUE by { assert !Ready(s.cfg.blockSize, ChainOf(b)); }
  }

  lemma NotPlaced(s: State, a: Obj, b: Block, e: Error)
    requires PlaceOutcome(s, a, b, true, Err(e))
    ensures e == Exhausted && Available(s) == 0
  {
  }

  lemma ValueIsAt(alloc: PrefixCacheBlockAllocator, a: Obj)
    requires alloc.Valid() && a in alloc.live
    ensures alloc.live[a].address == a
  {
  }

  lemma NoTokensYet(list: seq<TokenId>, size: nat, blocks: nat)
    requires size > 0 && |list| == blocks * size
    ensures Chunk(list, size, blocks) == [] && |list| <= (blocks + 1) * size
  {
    ChunkSize(list, size, blocks);
  }

  /** The rank's part of appending a token: a new block if its last one is full, then the token. It fails exactly if it
      needs an id and none is left. */
  method AppendToRow(alloc: PrefixCacheBlockAllocator, row: seq<BlockObj>, numFull: nat, token: TokenId,
                     extra: HashValue, size: nat, ghost list: seq<TokenId>) returns (r: Result<seq<BlockObj>>)
    requires RowHeld(alloc, row, list, size) && numFull == |list| && token != PLACEHOLDER_TOKEN
    requires |list| < |row| * size ==> OpenOk(alloc, row[|row| - 1], size)
    modifies alloc, alloc.evictor, if |list| < |row| * size then {row[|row| - 1]} else {}
    ensures r.Err? <==> |list| == |row| * size && Available(old(alloc.Abs())) == 0
    ensures r.Err? ==> r.error == Exhausted
    ensures r.Ok? ==> row <= r.value && |r.value| == |row| + (if |list| == |row| * size then 1 else 0) && r.value != []
    ensures r.Ok? ==> RowHeld(alloc, r.value, list + [token], size)
    ensures r.Ok? && |list| + 1 < |r.value| * size ==> OpenOk(alloc, r.value[|r.value| - 1], size)
    ensures r.Ok? ==> OthersSame(old(alloc.Abs()), alloc.Abs(), r.value[|r.value| - 1].address)
    ensures r.Ok? ==> ChainsOf(r.value) == Lengthened(old(ChainsOf(row)), size, token, extra)
    ensures r.Ok? && |list| < |row| * size ==> alloc.live == old(alloc.live)
    ensures r.Ok? ==> fresh(alloc.live.Values - old(alloc.live.Values))
    ensures r.Ok? && |list| == |row| * size ==>
      var b := r.value[|row|];
      && fresh(b) && b.prev == Last(row) && b.extra == extra
      && b.address !in old(alloc.live) && alloc.live == old(alloc.live)[b.address := b]
  {
    hide *;
    HeldFacts(alloc, row, list, size);
    RoomIs(alloc, row, list, size);
    var more := row;
    ghost var s, had := alloc.Abs(), ChainsOf(row);
    if numFull == |row| * size {
      var b := NewOpen(alloc, row, extra, list, size);
      if b.Err? {
        return Err(b.error);
      }
      more := row + [b.value];
      OneMore(|row|, size);
      NewLengthened(had, size, token, extra);
    } else {
      RoomLengthened(had, size, token, extra, row[|row| - 1].extra);
    }
    ghost var m := alloc.Abs();
    var f := AppendToSpRank(alloc, more, numFull, token, size, list);
    OthersThen(s, m, alloc.Abs(), more[|more| - 1].address);
    r := Ok(more);
  }

  lemma HeldFacts(alloc: PrefixCacheBlockAllocator, row: seq<BlockObj>, list: seq<TokenId>, size: nat)
    requires RowHeld(alloc, row, list, size)
    ensures RowParts(alloc, row, list, size) && size > 0 && |list| <= |row| * size
    ensures row != [] ==> (|row| - 1) * size < |list|
  {
  }

  lemma OneMore(blocks: nat, size: nat)
    requires size > 0
    ensures (blocks + 1 - 1) * size == blocks * size < (blocks + 1) * size
  {
  }

  lemma OthersThen(s: State, t: State, u: State, o: Obj)
    requires s == t || OthersSame(s, t, o)
    requires OthersSame(t, u, o)
    ensures OthersSame(s, u, o)
  {
  }

  // ---------- all ranks ----------

  /** What a table over these ranks depends on. */
  ghost function Footprint(allocs: seq<PrefixCacheBlockAllocator>, rows: seq<seq<BlockObj>>): set<object>
    reads set q | 0 <= q < |allocs| :: allocs[q]
  {
    (set q | 0 <= q < |allocs| :: allocs[q] as object) + (set q | 0 <= q < |allocs| :: allocs[q].evictor as object)
    + (set q, b | 0 <= q < |allocs| && b in allocs[q].live.Values :: b as object)
    + (set q, k | 0 <= q < |rows| && 0 <= k < |rows[q]| :: rows[q][k] as object)
    + (set q, k | 0 <= q < |rows| && 0 <= k < |rows[q]| && rows[q][k].prev != null :: rows[q][k].prev as object)
  }

  /** The rank `q` holds its list, in full blocks unless it is rank `c`, whose last block can then take tokens. */
  ghost predicate RankHeld(alloc: PrefixCacheBlockAllocator, row: seq<BlockObj>, list: seq<TokenId>, numFull: nat,
                           size: nat, open: bool)
    reads alloc, alloc.evictor, alloc.live.Values, row
    reads set k | 0 <= k < |row| && row[k].prev != null :: row[k].prev
  {
    && RowHeld(alloc, row, list, size) && numFull == |list|
    && (|list| < |row| * size ==> open && row != [] && OpenOk(alloc, row[|row| - 1], size))
  }

  /** All ranks hold their lists, in full blocks but for the last one of rank `c`. */
  ghost predicate Holding(allocs: seq<PrefixCacheBlockAllocator>, rows: seq<seq<BlockObj>>, lists: seq<seq<TokenId>>,
                          numFull: seq<nat>, size: nat, c: nat)
    reads (set q | 0 <= q < |allocs| :: allocs[q]), Footprint(allocs, rows)
  {
    && c < |allocs| == |rows| == |lists| == |numFull| && Separate(allocs)
    && forall q :: 0 <= q < |allocs| ==> RankHeld(allocs[q], rows[q], lists[q], numFull[q], size, q == c)
  }

  /** Rank `c` has only put its last block anew; nobody else's blocks have changed. */
  ghost predicate OnlyLast(states: seq<State>, now: seq<State>, c: nat, row: seq<BlockObj>) {
    && |now| == |states| && c < |states| && row != []
    && (forall q :: 0 <= q < |states| && q != c ==> now[q] == states[q])
    && OthersSame(states[c], now[c], row[|row| - 1].address)
  }

  /** The chains of every rank. */
  ghost function ChainRows(rows: seq<seq<BlockObj>>): (chains: seq<seq<Chain>>)
    reads set q, k | 0 <= q < |rows| && 0 <= k < |rows[q]| :: rows[q][k]
    ensures |chains| == |rows| && forall q :: 0 <= q < |rows| ==> chains[q] == ChainsOf(rows[q])
  {
    if rows == [] then [] else ChainRows(rows[..|rows| - 1]) + [ChainsOf(rows[|rows| - 1])]
  }

  lemma RankFacts(alloc: PrefixCacheBlockAllocator, row: seq<BlockObj>, list: seq<TokenId>, numFull: nat, size: nat,
                  open: bool)
    requires RankHeld(alloc, row, list, numFull, size, open)
    ensures RowHeld(alloc, row, list, size) && numFull == |list| <= |row| * size
    ensures |list| < |row| * size ==> open && row != [] && OpenOk(alloc, row[|row| - 1], size)
  {
    hide OpenOk;
  }

  lemma HoldingFacts(allocs: seq<PrefixCacheBlockAllocator>, rows: seq<seq<BlockObj>>, lists: seq<seq<TokenId>>,
                     numFull: seq<nat>, size: nat, c: nat)
    requires Holding(allocs, rows, lists, numFull, size, c)
    ensures c < |allocs| == |rows| == |lists| == |numFull| && Separate(allocs)
    ensures forall q :: 0 <= q < |allocs| ==> RankHeld(allocs[q], rows[q], lists[q], numFull[q], size, q == c)
  {
    hide RankHeld, Separate;
  }

  lemma HoldingIs(allocs: seq<PrefixCacheBlockAllocator>, rows: seq<seq<BlockObj>>, lists: seq<seq<TokenId>>,
                  numFull: seq<nat>, size: nat, c: nat)
    requires c < |allocs| == |rows| == |lists| == |numFull| && Separate(allocs)
    requires forall q :: 0 <= q < |allocs| ==> RankHeld(allocs[q], rows[q], lists[q], numFull[q], size, q == c)
    ensures Holding(allocs, rows, lists, numFull, size, c)
  {
    hide RankHeld, Separate;
  }

  lemma RowLive(alloc: PrefixCacheBlockAllocator, row: seq<BlockObj>, list: seq<TokenId>, numFull: nat, size: nat,
                open: bool)
    requires RankHeld(alloc, row, list, numFull, size, open)
    ensures forall b :: b in row ==> b in alloc.live.Values
  {
    hide Inv, LRUEvictor.Valid, OpenOk;
    forall k | 0 <= k < |row| ensures row[k] in alloc.live.Values { assert alloc.Has(row[k]); }
  }

  /** The objects before a full block need not be looked at. */
  lemma FullHeld(alloc: PrefixCacheBlockAllocator, row: seq<BlockObj>, list: seq<TokenId>, numFull: nat, size: nat,
                 open: bool)
    ensures
      RankHeld(alloc, row, list, numFull, size, false) <==>
      RowHeld(alloc, row, list, size) && numFull == |list| == |row| * size
    ensures RankHeld(alloc, row, list, numFull, size, false) ==> RankHeld(alloc, row, list, numFull, size, open)
  {
    hide OpenOk, Inv, RowParts;
  }

  lemma RankHeldIs(alloc: PrefixCacheBlockAllocator, row: seq<BlockObj>, list: seq<TokenId>, numFull: nat, size: nat)
    requires RowHeld(alloc, row, list, size) && numFull == |list| && row != []
    requires |list| < |row| * size ==> OpenOk(alloc, row[|row| - 1], size)
    ensures RankHeld(alloc, row, list, numFull, size, true)
  {
    hide OpenOk, RowHeld;
  }

  lemma OnlyLastIs(states: seq<State>, now: seq<State>, c: nat, row: seq<BlockObj>)
    requires |now| == |states| && c < |states| && row != []
    requires forall q :: 0 <= q < |states| && q != c ==> now[q] == states[q]
    requires OthersSame(states[c], now[c], row[|row| - 1].address)
    ensures OnlyLast(states, now, c, row)
  {
    hide OthersSame;
  }

  lemma PutRow(rows: seq<seq<BlockObj>>, chains: seq<seq<Chain>>, c: nat, row: seq<BlockObj>)
    requires c < |rows| == |chains|
    requires forall q :: 0 <= q < |rows| && q != c ==> ChainsOf(rows[q]) == chains[q]
    ensures ChainRows(rows[c := row]) == chains[c := ChainsOf(row)]
  {
    hide ChainsOf;
  }

  /** Rank `q` keeps out of what rank `c` touches. */
  lemma OutOfReach(allocs: seq<PrefixCacheBlockAllocator>, rows: seq<seq<BlockObj>>, lists: seq<seq<TokenId>>,
                   numFull: seq<nat>, size: nat, c: nat, q: nat)
    requires Holding(allocs, rows, lists, numFull, size, c) && q < |allocs| && q != c
    ensures forall b :: b in rows[c] ==> b !in allocs[q].live.Values && b !in rows[q]
    ensures forall k :: 0 <= k < |rows[q]| ==> rows[q][k] in allocs[q].live.Values
    ensures allocs[c] != allocs[q] && allocs[c].evictor != allocs[q].evictor
    ensures RowHeld(allocs[q], rows[q], lists[q], size) && numFull[q] == |lists[q]| == |rows[q]| * size
  {
    hide RankHeld;
    HoldingFacts(allocs, rows, lists, numFull, size, c);
    assert SeparatePair(allocs[c], allocs[q]);
    assert RankHeld(allocs[c], rows[c], lists[c], numFull[c], size, c == c);
    assert RankHeld(allocs[q], rows[q], lists[q], numFull[q], size, q == c);
    FullHeld(allocs[q], rows[q], lists[q], numFull[q], size, false);
    RowLive(allocs[c], rows[c], lists[c], numFull[c], size, true);
    RowLive(allocs[q], rows[q], lists[q], numFull[q], size, false);
  }

  /** All ranks again hold their lists. */
  lemma Reassemble(allocs: seq<PrefixCacheBlockAllocator>, rows: seq<seq<BlockObj>>, lists: seq<seq<TokenId>>,
                   numFull: seq<nat>, size: nat, c: nat, row: seq<BlockObj>, token: TokenId, states: seq<State>,
                   chains: seq<seq<Chain>>)
    requires c < |allocs| == |rows| == |lists| == |numFull| == |states| == |chains| && Separate(allocs) && row != []
    requires RowHeld(allocs[c], row, lists[c] + [token], size) && numFull[c] == |lists[c]|
    requires |lists[c]| + 1 < |row| * size ==> OpenOk(allocs[c], row[|row| - 1], size)
    requires OthersSame(states[c], allocs[c].Abs(), row[|row| - 1].address)
    requires forall q :: 0 <= q < |allocs| && q != c ==>
      && RowHeld(allocs[q], rows[q], lists[q], size) && numFull[q] == |lists[q]| == |rows[q]| * size
      && allocs[q].Abs() == states[q] && ChainsOf(rows[q]) == chains[q]
    ensures Holding(allocs, rows[c := row], lists[c := lists[c] + [token]], numFull[c := numFull[c] + 1], size, c)
    ensures OnlyLast(states, StatesOf(allocs), c, row)
    ensures ChainRows(rows[c := row]) == chains[c := ChainsOf(row)]
  {
    hide *;
    OnlyLastIs(states, StatesOf(allocs), c, row);
    PutRow(rows, chains, c, row);
    RankHeldIs(allocs[c], row, lists[c] + [token], numFull[c] + 1, size);
    forall q | 0 <= q < |allocs| && q != c ensures RankHeld(allocs[q], rows[q], lists[q], numFull[q], size, false) {
      FullHeld(allocs[q], rows[q], lists[q], numFull[q], size, false);
    }
    HoldingIs(allocs, rows[c := row], lists[c := lists[c] + [token]], numFull[c := numFull[c] + 1], size, c);
  }

  /** Appends the token to the row of rank `c`, with a new block if its last one is full. It fails exactly if that takes
      an id which the rank does not have. */
  method AppendOnRank(allocs: seq<PrefixCacheBlockAllocator>, rows: seq<seq<BlockObj>>, c: nat, numFull: seq<nat>,
                      token: TokenId, extra: HashValue, size: nat, ghost lists: seq<seq<TokenId>>)
    returns (r: Result<seq<BlockObj>>)
    requires Holding(allocs, rows, lists, numFull, size, c) && token != PLACEHOLDER_TOKEN
    modifies allocs[c], allocs[c].evictor, if |lists[c]| < |rows[c]| * size then {rows[c][|rows[c]| - 1]} else {}
    ensures r.Err? <==> |lists[c]| == |rows[c]| * size && Available(old(allocs[c].Abs())) == 0
    ensures r.Err? ==> r.error == Exhausted
    ensures r.Ok? ==>
      && rows[c] <= r.value && OnlyLast(old(StatesOf(allocs)), StatesOf(allocs), c, r.value)
      && Holding(allocs, rows[c := r.value], lists[c := lists[c] + [token]], numFull[c := numFull[c] + 1], size, c)
      && ChainRows(rows[c := r.value])
         == old(ChainRows(rows))[c := Lengthened(old(ChainRows(rows))[c], size, token, extra)]
  {
    hide *;
    HoldingFacts(allocs, rows, lists, numFull, size, c);
    ghost var lives, states, chains, row := LivesOf(allocs), StatesOf(allocs), ChainRows(rows), rows[c];
    LivesApart(allocs);
    RankFacts(allocs[c], rows[c], lists[c], numFull[c], size, true);
    forall q | 0 <= q < |allocs| && q != c
      ensures forall b :: b in row ==> b !in allocs[q].live.Values && b !in rows[q]
      ensures forall k :: 0 <= k < |rows[q]| ==> rows[q][k] in allocs[q].live.Values
      ensures allocs[c] != allocs[q] && allocs[c].evictor != allocs[q].evictor
      ensures RowHeld(allocs[q], rows[q], lists[q], size) && numFull[q] == |lists[q]| == |rows[q]| * size
    {
      OutOfReach(allocs, rows, lists, numFull, size, c, q);
    }
    r := AppendToRow(allocs[c], rows[c], numFull[c], token, extra, size, lists[c]);
    if r.Ok? {
      assert forall b :: b in allocs[c].live.Values && b !in lives[c].Values ==> fresh(b);
      SeparateStill(allocs, c, lives);
      Reassemble(allocs, rows, lists, numFull, size, c, r.value, token, states, chains);
    }
  }

  // ---------- what a prefill leaves ----------

  /** The blocks of rank `q`, among the first `k` of `n`. */
  function TurnsOf(k: nat, n: nat, ranks: nat, q: nat): seq<nat>
    requires ranks > 0
  {
    if k == 0 then [] else TurnsOf(k - 1, n, ranks, q) + (if RankOf(k - 1, n, ranks) == q then [k - 1] else [])
  }

  /** What a rank gets of whatever is dealt. */
  lemma {:induction false} OnRankIs<T>(xs: seq<T>, n: nat, ranks: nat, q: nat)
    requires ranks > 0
    ensures |OnRank(xs, n, ranks, q)| == |TurnsOf(|xs|, n, ranks, q)|
    ensures forall k :: 0 <= k < |OnRank(xs, n, ranks, q)| ==>
      TurnsOf(|xs|, n, ranks, q)[k] < |xs| && OnRank(xs, n, ranks, q)[k] == xs[TurnsOf(|xs|, n, ranks, q)[k]]
    decreases |xs|
  {
    if xs != [] { OnRankIs(xs[..|xs| - 1], n, ranks, q); }
  }

  predicate Rising(t: seq<nat>) {
    forall i, j :: 0 <= i < j < |t| ==> t[i] < t[j]
  }

  lemma RisesAt(t: seq<nat>, i: nat, j: nat)
    requires Rising(t) && i < j < |t|
    ensures t[i] < t[j]
  {
  }

  lemma {:induction false} TurnsRise(k: nat, n: nat, ranks: nat, q: nat)
    requires ranks > 0
    ensures Rising(TurnsOf(k, n, ranks, q))
    ensures forall j :: j in TurnsOf(k, n, ranks, q) ==> j < k && RankOf(j, n, ranks) == q
    ensures k > 0 && RankOf(k - 1, n, ranks) == q ==>
      var t := TurnsOf(k, n, ranks, q); t != [] && t[|t| - 1] == k - 1
  {
    hide RankOf;
    if k > 0 {
      TurnsRise(k - 1, n, ranks, q);
      var u := TurnsOf(k - 1, n, ranks, q);
      assert forall j :: 0 <= j < |u| ==> u[j] in u;
    }
  }

  /** The parts one after the other. */
  function Flat(parts: seq<seq<TokenId>>): seq<TokenId> {
    if parts == [] then [] else Flat(parts[..|parts| - 1]) + parts[|parts| - 1]
  }

  /** Full parts, the last of which may be partial, are the chunks of what they make up. */
  lemma {:induction false} FlatChunks(parts: seq<seq<TokenId>>, size: nat)
    requires size > 0
    requires forall k :: 0 <= k < |parts| ==> 0 < |parts[k]| <= size && (k + 1 < |parts| ==> |parts[k]| == size)
    ensures FitsRow(|parts|, |Flat(parts)|, size)
    ensures forall k :: 0 <= k < |parts| ==> Chunk(Flat(parts), size, k) == parts[k]
    ensures parts == [] || |parts[|parts| - 1]| == size <==> |Flat(parts)| == |parts| * size
  {
    if parts != [] {
      var m := |parts| - 1;
      FlatChunks(parts[..m], size);
      assert |parts| * size == m * size + size;
      forall k | 0 <= k < |parts| ensures Chunk(Flat(parts), size, k) == parts[k] {
        ChunkBehind(Flat(parts[..m]), parts[m], size, m, k);
      }
    }
  }

  lemma {:induction false} FlatMembers(parts: seq<seq<TokenId>>, token: TokenId)
    requires forall k :: 0 <= k < |parts| ==> token !in parts[k]
    ensures token !in Flat(parts)
  {
    if parts != [] { FlatMembers(parts[..|parts| - 1], token); }
  }

  lemma FlatNext(parts: seq<seq<TokenId>>, part: seq<TokenId>)
    ensures Flat(parts + [part]) == Flat(parts) + part
  {
    assert (parts + [part])[..|parts|] == parts;
  }

  /** Sorts the blocks of a prefill by the rank they were placed on, and counts their tokens. */
  method DealRows(objs: seq<BlockObj>, ranks: nat, ghost parts: seq<seq<TokenId>>)
    returns (rows: seq<seq<BlockObj>>, numFull: seq<nat>)
    requires ranks > 0 && |parts| == |objs| && forall k :: 0 <= k < |objs| ==> objs[k].tokens == parts[k]
    ensures |rows| == |numFull| == ranks
    ensures forall q :: 0 <= q < ranks ==>
      rows[q] == OnRank(objs, |objs|, ranks, q) && numFull[q] == |Flat(OnRank(parts, |objs|, ranks, q))|
  {
    ghost var n := |objs|;
    rows, numFull := seq(ranks, q => []), seq(ranks, q => 0);
    for k := 0 to |objs|
      invariant |rows| == |numFull| == ranks
      invariant forall q :: 0 <= q < ranks ==>
        rows[q] == OnRank(objs[..k], n, ranks, q) && numFull[q] == |Flat(OnRank(parts[..k], n, ranks, q))|
    {
      var r := RankOf(k, |objs|, ranks);
      assert objs[..k + 1] == objs[..k] + [objs[k]] && parts[..k + 1] == parts[..k] + [parts[k]];
      forall q | 0 <= q < ranks
        ensures OnRank(objs[..k + 1], n, ranks, q)
             == OnRank(objs[..k], n, ranks, q) + (if q == r then [objs[k]] else [])
        ensures |Flat(OnRank(parts[..k + 1], n, ranks, q))|
             == |Flat(OnRank(parts[..k], n, ranks, q))| + (if q == r then |objs[k].tokens| else 0)
      {
        OnRankNext(objs[..k], objs[k], n, ranks, q);
        OnRankNext(parts[..k], parts[k], n, ranks, q);
        FlatNext(OnRank(parts[..k], n, ranks, q), parts[k]);
      }
      rows, numFull := rows[r := rows[r] + [objs[k]]], numFull[r := numFull[r] + |objs[k].tokens|];
    }
    assert objs[..|objs|] == objs && parts[..|objs|] == parts;
  }

  function Parts(tokens: seq<TokenId>, size: nat, n: nat): (parts: seq<seq<TokenId>>)
    ensures |parts| == n && forall j :: 0 <= j < n ==> parts[j] == Chunk(tokens, size, j)
  {
    seq(n, j requires 0 <= j < n => Chunk(tokens, size, j))
  }

  /** All chunks but the last are full, and none is empty. */
  lemma PartSize(tokens: seq<TokenId>, size: nat, n: nat, j: nat)
    requires size > 0 && n == CeilDiv(|tokens|, size) && j < n
    ensures 0 < |Chunk(tokens, size, j)| <= size && (j + 1 < n ==> |Chunk(tokens, size, j)| == size)
  {
    Remaining(|tokens|, size, n, j, 1);
    ChunkSize(tokens, size, j);
    Scaled(j, j + 1, size);
  }

  lemma PartTokens(tokens: seq<TokenId>, size: nat, j: nat)
    requires size > 0
    ensures forall x :: x in Chunk(tokens, size, j) ==> x in tokens
  {
    Scaled(j, j + 1, size);
  }

  /** What block `j` of a prefill is. */
  lemma PrefillBlock(allocs: seq<PrefixCacheBlockAllocator>, objs: seq<BlockObj>, tokens: seq<TokenId>,
                     extra: HashValue, size: nat, mix: Mixer, starts: seq<State>, j: nat)
    requires Placing(allocs, objs, tokens, extra, size, mix, |objs|, starts) && j < |objs|
    ensures |allocs| > 0 && RankOf(j, |objs|, |allocs|) < |allocs|
    ensures objs[j].Chain() == SeqChain(tokens, size, extra, j + 1) && objs[j].tokens == Chunk(tokens, size, j)
    ensures objs[j].prev == (if j == 0 then null else objs[j - 1])
    ensures
      var alloc := allocs[RankOf(j, |objs|, |allocs|)];
      objs[j].address in alloc.live && alloc.live[objs[j].address] == objs[j]
  {
    hide *;
    PlacingFacts(allocs, objs, tokens, extra, size, mix, |objs|, starts);
    PlacedFacts(allocs, objs, tokens, extra, size, |objs|, j);
    LastBefore(objs, j);
    AreInOne(allocs[RankOf(j, |objs|, |allocs|)].live, objs[j]);
  }

  lemma LastBefore(objs: seq<BlockObj>, j: nat)
    requires j < |objs|
    ensures Last(objs[..j]) == if j == 0 then null else objs[j - 1]
  {
  }

  lemma AreInOne(live: map<Obj, BlockObj>, b: BlockObj)
    requires AreIn(live, [b])
    ensures b.address in live && live[b.address] == b
  {
    assert [b][0] == b;
  }

  /** The blocks of a prefill are different objects, since their chains differ. */
  lemma PrefillDistinct(allocs: seq<PrefixCacheBlockAllocator>, objs: seq<BlockObj>, tokens: seq<TokenId>,
                        extra: HashValue, size: nat, mix: Mixer, starts: seq<State>, i: nat, j: nat)
    requires Placing(allocs, objs, tokens, extra, size, mix, |objs|, starts) && i < j < |objs|
    ensures objs[i] != objs[j]
  {
    hide *;
    PrefillBlock(allocs, objs, tokens, extra, size, mix, starts, i);
    PrefillBlock(allocs, objs, tokens, extra, size, mix, starts, j);
    SeqSpan(tokens, size, extra, i + 1);
    SeqSpan(tokens, size, extra, j + 1);
  }

  /** What a rank has of a prefill: its chains, its chunks, its live objects. */
  lemma PrefillRow(allocs: seq<PrefixCacheBlockAllocator>, objs: seq<BlockObj>, tokens: seq<TokenId>, extra: HashValue,
                   size: nat, mix: Mixer, starts: seq<State>, q: nat)
    requires Placing(allocs, objs, tokens, extra, size, mix, |objs|, starts) && q < |allocs|
    ensures
      var n := |objs|;
      var row, parts := OnRank(objs, n, |allocs|, q), OnRank(Parts(tokens, size, n), n, |allocs|, q);
      && |row| == |parts| == |TurnsOf(n, n, |allocs|, q)|
      && ChainsOf(row) == OnRank(SeqChains(tokens, size, extra, n), n, |allocs|, q)
      && (forall k :: 0 <= k < |row| ==>
            TurnsOf(n, n, |allocs|, q)[k] < n && row[k] == objs[TurnsOf(n, n, |allocs|, q)[k]]
            && parts[k] == Chunk(tokens, size, TurnsOf(n, n, |allocs|, q)[k])
            && row[k].tokens == parts[k]
            && row[k].address in allocs[q].live && allocs[q].live[row[k].address] == row[k])
      && (forall i, k :: 0 <= i < k < |row| ==> row[i] != row[k])
  {
    hide *;
    var n, ranks := |objs|, |allocs|;
    var row, turns := OnRank(objs, n, ranks, q), TurnsOf(n, n, ranks, q);
    OnRankIs(objs, n, ranks, q);
    OnRankIs(Parts(tokens, size, n), n, ranks, q);
    OnRankIs(SeqChains(tokens, size, extra, n), n, ranks, q);
    TurnsRise(n, n, ranks, q);
    forall k | 0 <= k < |row|
      ensures row[k].tokens == Chunk(tokens, size, turns[k])
      ensures row[k].Chain() == SeqChain(tokens, size, extra, turns[k] + 1)
      ensures row[k].address in allocs[q].live && allocs[q].live[row[k].address] == row[k]
    {
      PrefillBlock(allocs, objs, tokens, extra, size, mix, starts, turns[k]);
    }
    forall i, k | 0 <= i < k < |row| ensures row[i] != row[k] {
      RisesAt(turns, i, k);
      PrefillDistinct(allocs, objs, tokens, extra, size, mix, starts, turns[i], turns[k]);
    }
    SeqChainsAt(tokens, size, extra, n);
    assert ChainsOf(row) == OnRank(SeqChains(tokens, size, extra, n), n, ranks, q);
  }

  lemma SeqChainsAt(tokens: seq<TokenId>, size: nat, extra: HashValue, n: nat)
    ensures forall j :: 0 <= j < n ==> SeqChains(tokens, size, extra, n)[j] == SeqChain(tokens, size, extra, j + 1)
  {
  }

  /** The last block of a prefill, unless it is full, takes the next token. */
  lemma PrefillOpen(allocs: seq<PrefixCacheBlockAllocator>, objs: seq<BlockObj>, tokens: seq<TokenId>, extra: HashValue,
                    size: nat, mix: Mixer, starts: seq<State>)
    requires Placing(allocs, objs, tokens, extra, size, mix, |objs|, starts) && objs != []
    requires |objs| == CeilDiv(|tokens|, size) && PLACEHOLDER_TOKEN !in tokens
    requires RankOf(|objs| - 1, |objs|, |allocs|) < |allocs|
    requires LastOpen(allocs[RankOf(|objs| - 1, |objs|, |allocs|)], objs) && |objs[|objs| - 1].tokens| < size
    ensures OpenOk(allocs[RankOf(|objs| - 1, |objs|, |allocs|)], objs[|objs| - 1], size)
  {
    hide *;
    var n := |objs|;
    var alloc, b := allocs[RankOf(n - 1, n, |allocs|)], objs[n - 1];
    PlacingFacts(allocs, objs, tokens, extra, size, mix, n, starts);
    PrefillBlock(allocs, objs, tokens, extra, size, mix, starts, n - 1);
    if n > 1 { PrefillBlock(allocs, objs, tokens, extra, size, mix, starts, n - 2); }
    ChainIs(b);
    BehindIs(tokens, size, extra, objs, b);
    Remaining(|tokens|, size, n, n - 1, 1);
    SeqChainReady(tokens, size, extra, n - 1);
    WritableFacts(alloc, objs);
    StillOpen(alloc, b, SeqChain(tokens, size, extra, n - 1), size);
  }

  lemma WritableFacts(alloc: PrefixCacheBlockAllocator, objs: seq<BlockObj>)
    requires objs != [] && LastOpen(alloc, objs) && |objs[|objs| - 1].tokens| < alloc.cfg.blockSize
    ensures
      var b := objs[|objs| - 1];
      alloc.Has(b) && b.address in alloc.Abs().blocks && Alone(alloc.Abs(), b.address)
  {
  }

  lemma BehindIs(tokens: seq<TokenId>, size: nat, extra: HashValue, objs: seq<BlockObj>, b: BlockObj)
    requires objs != [] && b == objs[|objs| - 1] && b.Chain() == SeqChain(tokens, size, extra, |objs|)
    requires b.prev == (if |objs| == 1 then null else objs[|objs| - 2])
    requires |objs| > 1 ==> objs[|objs| - 2].Chain() == SeqChain(tokens, size, extra, |objs| - 1)
    ensures b.before == Behind(b.prev) == SeqChain(tokens, size, extra, |objs| - 1)
    ensures Behind(b.prev).Root? <==> |objs| == 1
  {
  }

  /** What a prefill leaves on a rank. */
  lemma PrefillHeld(allocs: seq<PrefixCacheBlockAllocator>, objs: seq<BlockObj>, tokens: seq<TokenId>, extra: HashValue,
                    size: nat, mix: Mixer, starts: seq<State>, q: nat)
    requires Placing(allocs, objs, tokens, extra, size, mix, |objs|, starts) && objs != [] && q < |allocs|
    requires |objs| == CeilDiv(|tokens|, size) && PLACEHOLDER_TOKEN !in tokens
    requires RankOf(|objs| - 1, |objs|, |allocs|) < |allocs|
    requires LastOpen(allocs[RankOf(|objs| - 1, |objs|, |allocs|)], objs)
    ensures
      var n, ranks := |objs|, |allocs|;
      var row, list := OnRank(objs, n, ranks, q), Flat(OnRank(Parts(tokens, size, n), n, ranks, q));
      && RankHeld(allocs[q], row, list, |list|, size, q == RankOf(n - 1, n, ranks))
      && ChainsOf(row) == OnRank(SeqChains(tokens, size, extra, n), n, ranks, q)
  {
    hide *;
    var n, ranks := |objs|, |allocs|;
    var row, turns := OnRank(objs, n, ranks, q), TurnsOf(n, n, ranks, q);
    var parts := OnRank(Parts(tokens, size, n), n, ranks, q);
    var list := Flat(parts);
    PlacingFacts(allocs, objs, tokens, extra, size, mix, n, starts);
    PrefillRow(allocs, objs, tokens, extra, size, mix, starts, q);
    TurnsRise(n, n, ranks, q);
    forall k | 0 <= k < |row|
      ensures 0 < |parts[k]| <= size && (k + 1 < |row| ==> |parts[k]| == size)
      ensures |parts[k]| < size ==> turns[k] + 1 == n && RankOf(turns[k], n, ranks) == q
      ensures PLACEHOLDER_TOKEN !in parts[k]
    {
      PartSize(tokens, size, n, turns[k]);
      PartTokens(tokens, size, turns[k]);
      if k + 1 < |row| { RisesAt(turns, k, k + 1); }
    }
    FlatChunks(parts, size);
    FlatMembers(parts, PLACEHOLDER_TOKEN);
    FitsIs(|row|, |list|, size);
    RowIs(allocs[q], row, list, size);
    HeldIs(allocs[q], row, list, size);
    if |list| < |row| * size {
      assert row[|row| - 1] == objs[n - 1];
      PrefillOpen(allocs, objs, tokens, extra, size, mix, starts);
      RankHeldIs(allocs[q], row, list, |list|, size);
    } else {
      FullHeld(allocs[q], row, list, |list|, size, q == RankOf(n - 1, n, ranks));
    }
  }

  lemma HeldIs(alloc: PrefixCacheBlockAllocator, row: seq<BlockObj>, list: seq<TokenId>, size: nat)
    requires RowParts(alloc, row, list, size) && FitsRow(|row|, |list|, size)
    ensures RowHeld(alloc, row, list, size) && |list| <= |row| * size && (row == [] ==> |list| == |row| * size)
  {
    hide RowParts;
  }

  lemma FitsIs(blocks: nat, length: nat, size: nat)
    requires FitsRow(blocks, length, size)
    ensures length <= blocks * size
  {
  }

  lemma PrefillHolding(allocs: seq<PrefixCacheBlockAllocator>, objs: seq<BlockObj>, tokens: seq<TokenId>,
                       extra: HashValue, size: nat, mix: Mixer, starts: seq<State>, rows: seq<seq<BlockObj>>,
                       lists: seq<seq<TokenId>>, numFull: seq<nat>)
    requires Placing(allocs, objs, tokens, extra, size, mix, |objs|, starts) && objs != []
    requires |objs| == CeilDiv(|tokens|, size) && PLACEHOLDER_TOKEN !in tokens
    requires RankOf(|objs| - 1, |objs|, |allocs|) < |allocs|
    requires LastOpen(allocs[RankOf(|objs| - 1, |objs|, |allocs|)], objs)
    requires |rows| == |lists| == |numFull| == |allocs|
    requires forall q :: 0 <= q < |allocs| ==>
      && rows[q] == OnRank(objs, |objs|, |allocs|, q) && numFull[q] == |lists[q]|
      && lists[q] == Flat(OnRank(Parts(tokens, size, |objs|), |objs|, |allocs|, q))
    ensures Holding(allocs, rows, lists, numFull, size, RankOf(|objs| - 1, |objs|, |allocs|))
    ensures size > 0 && tokens != []
    ensures
      Deal(ChainRows(rows), RankOf(|objs| - 1, |objs|, |allocs|)) == Prefilled(tokens, size, extra, |allocs|)
  {
    hide *;
    var n, ranks := |objs|, |allocs|;
    PlacingFacts(allocs, objs, tokens, extra, size, mix, n, starts);
    RankStarts(|tokens|, size, n, ranks);
    forall q | 0 <= q < ranks
      ensures RankHeld(allocs[q], rows[q], lists[q], numFull[q], size, q == RankOf(n - 1, n, ranks))
      ensures ChainsOf(rows[q]) == OnRank(SeqChains(tokens, size, extra, n), n, ranks, q)
    {
      PrefillHeld(allocs, objs, tokens, extra, size, mix, starts, q);
    }
    HoldingIs(allocs, rows, lists, numFull, size, RankOf(n - 1, n, ranks));
    PrefilledIs(tokens, size, extra, ranks);
    RowsAre(rows, Prefilled(tokens, size, extra, ranks));
  }

  lemma RowsAre(rows: seq<seq<BlockObj>>, d: Deal)
    requires |rows| == |d.rows| && forall q :: 0 <= q < |rows| ==> ChainsOf(rows[q]) == d.rows[q]
    ensures Deal(ChainRows(rows), d.current) == d
  {
    hide ChainsOf;
    assert ChainRows(rows) == d.rows;
  }

  lemma PrefilledIs(tokens: seq<TokenId>, size: nat, extra: HashValue, ranks: nat)
    requires size > 0 && ranks > 0 && tokens != []
    ensures
      var d, n := Prefilled(tokens, size, extra, ranks), CeilDiv(|tokens|, size);
      && n > 0 && d.current == RankOf(n - 1, n, ranks) && |d.rows| == ranks
      && forall q :: 0 <= q < ranks ==> d.rows[q] == OnRank(SeqChains(tokens, size, extra, n), n, ranks, q)
  {
    hide OnRank;
    RankStarts(|tokens|, size, CeilDiv(|tokens|, size), ranks);
  }

  /** Once rank `c` is full, any other may be the one to take tokens. */
  lemma Turned(allocs: seq<PrefixCacheBlockAllocator>, rows: seq<seq<BlockObj>>, lists: seq<seq<TokenId>>,
               numFull: seq<nat>, size: nat, c: nat, d: nat)
    requires Holding(allocs, rows, lists, numFull, size, c) && d < |allocs|
    requires d != c ==> numFull[c] == |rows[c]| * size
    ensures Holding(allocs, rows, lists, numFull, size, d)
  {
    hide *;
    HoldingFacts(allocs, rows, lists, numFull, size, c);
    if d != c {
      forall q | 0 <= q < |allocs| ensures RankHeld(allocs[q], rows[q], lists[q], numFull[q], size, q == d) {
        RankFacts(allocs[q], rows[q], lists[q], numFull[q], size, q == c);
        FullHeld(allocs[q], rows[q], lists[q], numFull[q], size, q == d);
      }
      HoldingIs(allocs, rows, lists, numFull, size, d);
    }
  }

  /** How much room a rank has. */
  lemma RoomAt(allocs: seq<PrefixCacheBlockAllocator>, rows: seq<seq<BlockObj>>, lists: seq<seq<TokenId>>,
               numFull: seq<nat>, size: nat, c: nat, q: nat)
    requires Holding(allocs, rows, lists, numFull, size, c) && q < |allocs|
    ensures c < |allocs| == |rows| == |lists| == |numFull| && size > 0
    ensures numFull[q] == |lists[q]| <= |rows[q]| * size && (q != c ==> numFull[q] == |rows[q]| * size)
    ensures HasRoom(ChainRows(rows)[q], size) <==> numFull[q] < |rows[q]| * size
  {
    hide *;
    HoldingFacts(allocs, rows, lists, numFull, size, c);
    RankFacts(allocs[q], rows[q], lists[q], numFull[q], size, q == c);
    RoomIs(allocs[q], rows[q], lists[q], size);
    HeldFacts(allocs[q], rows[q], lists[q], size);
  }

  lemma PutIs(d: Deal, size: nat, token: TokenId, extra: HashValue)
    requires d.current < |d.rows|
    ensures
      var c := TakingRank(d, size);
      Put(d, size, token, extra) == Deal(d.rows[c := Lengthened(d.rows[c], size, token, extra)], c)
  {
  }

  lemma OneNew(blocks: nat, numFull: nat, count: nat, size: nat)
    requires size > 0 && numFull <= blocks * size
    ensures
      var empty := blocks * size - numFull;
      NewBlocks(blocks, numFull, count, size) == if count > empty then CeilDiv(count - empty, size) else 0
    ensures count == 1 ==> NewBlocks(blocks, numFull, count, size) == if numFull < blocks * size then 0 else 1
  {
    DivIs(size, size, 1);
  }

  lemma Elsewhere(t: RankTable, allocs: seq<PrefixCacheBlockAllocator>, rows: seq<seq<BlockObj>>)
    ensures t !in Footprint(allocs, rows)
  {
  }

  /** A table over several ranks; its blocks were placed by a prefill, and take tokens in turn. */
  class RankTable {
    const allocs: seq<PrefixCacheBlockAllocator>
    const size: nat
    var rows: seq<seq<BlockObj>>
    var numFull: seq<nat>
    var current: nat
    ghost var lists: seq<seq<TokenId>>  // what the blocks of each rank hold

    ghost predicate Valid()
      reads this, (set q | 0 <= q < |allocs| :: allocs[q]), Footprint(allocs, rows)
    {
      Holding(allocs, rows, lists, numFull, size, current)
    }

    ghost function Chains(): Deal
      reads this, set q, k | 0 <= q < |rows| && 0 <= k < |rows[q]| :: rows[q][k]
    {
      Deal(ChainRows(rows), current)
    }

    function GetNumEmptySlots(q: nat): int
      requires q < |rows| == |numFull|
      reads this
    {
      |rows[q]| * size - numFull[q]
    }

    predicate IsAllocated()
      reads this
    {
      exists q :: 0 <= q < |rows| && rows[q] != []
    }

    /** The next token needs an id which its rank does not have. */
    ghost predicate Stuck()
      reads this, (set q | 0 <= q < |allocs| :: allocs[q]), Footprint(allocs, rows)
    {
      && current < |rows| == |allocs|
      && var c := TakingRank(Chains(), size);
         !HasRoom(Chains().rows[c], size) && Available(allocs[c].Abs()) == 0
    }

    /** The table of a prompt that has been placed; `last` is the rank of its last block. */
    constructor (allocs: seq<PrefixCacheBlockAllocator>, objs: seq<BlockObj>, last: nat, size: nat,
                 ghost tokens: seq<TokenId>, ghost extra: HashValue, ghost mix: Mixer, ghost starts: seq<State>)
      requires Placing(allocs, objs, tokens, extra, size, mix, |objs|, starts) && |objs| == CeilDiv(|tokens|, size) > 0
      requires last == RankOf(|objs| - 1, |objs|, |allocs|) < |allocs| && LastOpen(allocs[last], objs)
      requires PLACEHOLDER_TOKEN !in tokens
      ensures Valid() && this.allocs == allocs && this.size == size > 0 && tokens != []
      ensures Chains() == Prefilled(tokens, size, extra, |allocs|)
    {
      hide *;
      PlacingFacts(allocs, objs, tokens, extra, size, mix, |objs|, starts);
      forall k | 0 <= k < |objs| ensures objs[k].tokens == Chunk(tokens, size, k) {
        PrefillBlock(allocs, objs, tokens, extra, size, mix, starts, k);
      }
      var dealt, counts := DealRows(objs, |allocs|, Parts(tokens, size, |objs|));
      this.allocs, this.size, rows, numFull, current := allocs, size, dealt, counts, last;
      lists := seq(|allocs|,
        q requires 0 <= q < |allocs| => Flat(OnRank(Parts(tokens, size, |objs|), |objs|, |allocs|, q)));
      new;
      PrefillHolding(allocs, objs, tokens, extra, size, mix, starts, rows, lists, numFull);
      Unfolded();
    }

    lemma Unfolded()
      ensures Chains() == Deal(ChainRows(rows), current)
      ensures Valid() <==> Holding(allocs, rows, lists, numFull, size, current)
    {
      hide Holding, ChainRows;
    }

    lemma Facts()
      requires Valid()
      ensures current < |rows| == |allocs| == |numFull| == |lists| && size > 0
      ensures Chains().rows == ChainRows(rows) && Chains().current == current
      ensures Holding(allocs, rows, lists, numFull, size, current)
    {
      hide *;
      Unfolded();
      HoldingFacts(allocs, rows, lists, numFull, size, current);
      RoomAt(allocs, rows, lists, numFull, size, current, current);
    }

    /** The rank that takes the next token, and when that fails. */
    lemma NextIs(c: nat)
      requires Valid() && current < |rows| == |numFull| == |allocs| == |lists|
      requires c == if GetNumEmptySlots(current) == 0 then (current + 1) % |rows| else current
      ensures Chains().current < |Chains().rows| && c == TakingRank(Chains(), size) < |allocs|
      ensures Holding(allocs, rows, lists, numFull, size, c)
      ensures Stuck() <==> |lists[c]| == |rows[c]| * size && Available(allocs[c].Abs()) == 0
    {
      hide Holding, ChainRows, HasRoom, Available, RankTable.Valid;
      Facts();
      RoomAt(allocs, rows, lists, numFull, size, current, current);
      assert c == TakingRank(Chains(), size);
      Turned(allocs, rows, lists, numFull, size, current, c);
      RoomAt(allocs, rows, lists, numFull, size, c, c);
    }

    lemma InFootprint(c: nat)
      requires Holding(allocs, rows, lists, numFull, size, c)
      ensures c < |allocs| == |rows| == |lists| && allocs[c].evictor in Footprint(allocs, rows)
      ensures |lists[c]| < |rows[c]| * size ==> rows[c] != [] && rows[c][|rows[c]| - 1] in Footprint(allocs, rows)
    {
      hide RankHeld, Separate;
      HoldingFacts(allocs, rows, lists, numFull, size, c);
      assert RankHeld(allocs[c], rows[c], lists[c], numFull[c], size, true);
      RankFacts(allocs[c], rows[c], lists[c], numFull[c], size, true);
    }

    lemma Offers(c: nat)
      requires Valid() && current < |rows| == |numFull| == |allocs| == |lists|
      requires Holding(allocs, rows, lists, numFull, size, c)
      ensures c < |allocs| && allocs[c].Valid() && size > 0 && allocs[c].GetNumFreeBlock() == Available(allocs[c].Abs())
      ensures 0 <= GetNumEmptySlots(c) == |rows[c]| * size - numFull[c]
      ensures GetNumEmptySlots(c) > 0 <==> HasRoom(Chains().rows[c], size)
    {
      hide Holding, RankHeld, ChainRows, HasRoom, RankTable.Valid;
      Facts();
      HoldingFacts(allocs, rows, lists, numFull, size, c);
      RoomAt(allocs, rows, lists, numFull, size, c, c);
      assert RankHeld(allocs[c], rows[c], lists[c], numFull[c], size, true);
      RankFacts(allocs[c], rows[c], lists[c], numFull[c], size, true);
      RowFacts(allocs[c], rows[c], lists[c], size);
    }

    /** Asks the rank that would take them for ids for all the tokens, and for one to spare. */
    method CanAppendNewTokens(count: nat) returns (r: Result<bool>)
      requires Valid()
      ensures |allocs| == 1 || !IsAllocated() ==> r == Err(Misuse)
      ensures |allocs| > 1 && IsAllocated() ==>
        && r.Ok? && current < |rows| == |numFull| == |allocs| && size > 0
        && var c := TakingRank(Chains(), size);
           && numFull[c] <= |rows[c]| * size
           && (r.value <==> Available(allocs[c].Abs()) > NewBlocks(|rows[c]|, numFull[c], count, size))
           && (count == 1 ==>
                 (r.value <==> Available(allocs[c].Abs()) > if HasRoom(Chains().rows[c], size) then 0 else 1))
      ensures r == Ok(true) ==> !Stuck()
    {
      hide *;
      Facts();
      if |allocs| <= 1 || !IsAllocated() {
        return Err(Misuse);
      }
      var next := if GetNumEmptySlots(current) == 0 then (current + 1) % |rows| else current;
      NextIs(next);
      Offers(next);
      var empty := GetNumEmptySlots(next);
      var need := if count > empty then 1 + CeilDiv(count - empty, size) else 1;
      OneNew(|rows[next]|, numFull[next], count, size);
      r := Ok(allocs[next].GetNumFreeBlock() >= need);
    }

    /** The row of rank `c` is `row` now, one token longer. */
    method TakeRow(c: nat, row: seq<BlockObj>, ghost token: TokenId)
      requires c < |rows| == |numFull| == |lists|
      requires Holding(allocs, rows[c := row], lists[c := lists[c] + [token]], numFull[c := numFull[c] + 1], size, c)
      modifies this`rows, this`numFull, this`lists, this`current
      ensures rows == old(rows)[c := row] && current == c
      ensures Holding(allocs, rows, lists, numFull, size, current)
      ensures ChainRows(rows) == old(ChainRows(rows[c := row])) && StatesOf(allocs) == old(StatesOf(allocs))
    {
      hide *;
      Elsewhere(this, allocs, rows[c := row]);
      rows, numFull, lists, current := rows[c := row], numFull[c := numFull[c] + 1], lists[c := lists[c] + [token]], c;
    }

    /** Appends the last of the tokens: to the current rank while it has room, else to the next one, behind that rank's
        own last block. It fails exactly if that takes an id which the rank does not have. */
    method AppendNewTokens(ts: seq<TokenId>, extra: HashValue) returns (r: Result<()>)
      requires Valid() && PLACEHOLDER_TOKEN !in ts
      modifies this`rows, this`numFull, this`current, this`lists
      modifies (set q | 0 <= q < |allocs| :: allocs[q]), Footprint(allocs, rows)
      ensures old(!IsAllocated()) ==> r == Err(Misuse)
      ensures old(IsAllocated()) && ts == [] ==>
        && r == Ok(()) && Valid() && rows == old(rows)
        && Chains() == old(Chains()) && StatesOf(allocs) == old(StatesOf(allocs))
      ensures old(IsAllocated()) && ts != [] ==> (r.Err? <==> old(Stuck())) && (r.Err? ==> r.error == Exhausted)
      ensures r.Ok? && ts != [] ==>
        && Valid() && old(current) < |old(rows)| == |rows| == |allocs|
        && Chains() == Put(old(Chains()), size, ts[|ts| - 1], extra)
        && current < |allocs| && old(rows)[current] <= rows[current] && rows == old(rows)[current := rows[current]]
        && OnlyLast(old(StatesOf(allocs)), StatesOf(allocs), current, rows[current])
    {
      hide *;
      Facts();
      if !IsAllocated() {
        return Err(Misuse);
      }
      if ts == [] {
        return Ok(());
      }
      var c := if GetNumEmptySlots(current) == 0 then (current + 1) % |rows| else current;
      NextIs(c);
      InFootprint(c);
      PutIs(Chains(), size, ts[|ts| - 1], extra);
      var more := AppendOnRank(allocs, rows, c, numFull, ts[|ts| - 1], extra, size, lists);
      if more.Err? {
        return Err(more.error);
      }
      TakeRow(c, more.value, ts[|ts| - 1]);
      Unfolded();
      r := Ok(());
    }
  }
}
