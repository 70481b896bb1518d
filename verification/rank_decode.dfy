/** Decoding over several ranks, as it changes the chains of a table's blocks: a new block is filed behind its rank's
    own last block, not behind the sequence. */
module RankDecode {
  import opened Basics
  import opened Arithmetic
  import opened Chunking
  import opened PrefixChain
  import opened BlockTableSpec
  import opened RankPlacement

  /** The chains of the blocks on every rank, and the rank that took the last token. */
  datatype Deal = Deal(rows: seq<seq<Chain>>, current: nat)

  /** The chain the next block of a rank is put behind. */
  function EndOf(row: seq<Chain>): Chain {
    if row == [] then Root else row[|row| - 1]
  }

  predicate HasRoom(row: seq<Chain>, size: nat) {
    EndOf(row).Link? && |EndOf(row).tokens| < size
  }

  /** A token goes into the rank's last block, or into a new one. */
  function Lengthened(row: seq<Chain>, size: nat, token: TokenId, extra: HashValue): seq<Chain> {
    var end := EndOf(row);
    if HasRoom(row, size) then row[..|row| - 1] + [Link(end.before, end.tokens + [token], end.extra)]
    else row + [Link(end, [token], extra)]
  }

  /** The current rank while it has room, then the next one. */
  function TakingRank(d: Deal, size: nat): (c: nat)
    requires d.current < |d.rows|
    ensures c < |d.rows| && (!HasRoom(d.rows[d.current], size) && |d.rows| > 1 ==> c != d.current)
  {
    if HasRoom(d.rows[d.current], size) then d.current
    else
      ModBelow(d.current + 1, |d.rows|);
      (d.current + 1) % |d.rows|
  }

  lemma ModBelow(k: nat, d: nat)
    requires 0 < k <= d
    ensures k % d < d && (d > 1 ==> k % d != k - 1) && (k < d ==> k % d == k) && (k == d ==> k % d == 0)
  {
  }

  function Put(d: Deal, size: nat, token: TokenId, extra: HashValue): (e: Deal)
    requires d.current < |d.rows|
    ensures e.current < |e.rows| == |d.rows|
  {
    var c := TakingRank(d, size);
    Deal(d.rows[c := Lengthened(d.rows[c], size, token, extra)], c)
  }

  /** Appends the tokens one after the other. */
  function PutAll(d: Deal, size: nat, ts: seq<TokenId>, extra: HashValue): (e: Deal)
    requires d.current < |d.rows|
    ensures e.current < |e.rows| == |d.rows|
  {
    if ts == [] then d else Put(PutAll(d, size, ts[..|ts| - 1], extra), size, ts[|ts| - 1], extra)
  }

  function SeqChains(tokens: seq<TokenId>, size: nat, extra: HashValue, n: nat): (chains: seq<Chain>)
    ensures |chains| == n
  {
    seq(n, j requires 0 <= j < n => SeqChain(tokens, size, extra, j + 1))
  }

  /** What the prefill of a prompt leaves. */
  function Prefilled(tokens: seq<TokenId>, size: nat, extra: HashValue, ranks: nat): (d: Deal)
    requires size > 0 && ranks > 0 && tokens != []
    ensures d.current < |d.rows| == ranks
  {
    var n := CeilDiv(|tokens|, size);
    RankStarts(|tokens|, size, n, ranks);
    RankNext(n, n, ranks);
    Deal(seq(ranks, q requires 0 <= q < ranks => OnRank(SeqChains(tokens, size, extra, n), n, ranks, q)),
         RankOf(n - 1, n, ranks))
  }

  // ---------- behind what a block is filed ----------

  /** All tokens of a chain. */
  function TokensOf(c: Chain): seq<TokenId> {
    match c
    case Root => []
    case Link(before, tokens, _) => TokensOf(before) + tokens
  }

  /** One rank spells the whole sequence; of several, all but the current one fall short of it. */
  predicate Spells(d: Deal, q: nat, whole: seq<TokenId>)
    requires q < |d.rows|
  {
    var mine := TokensOf(EndOf(d.rows[q]));
    if |d.rows| == 1 then mine == whole else |mine| <= |whole| && (q != d.current ==> |mine| < |whole|)
  }

  predicate AllSpell(d: Deal, whole: seq<TokenId>) {
    forall q :: 0 <= q < |d.rows| ==> Spells(d, q, whole)
  }

  lemma PutSpells(d: Deal, size: nat, token: TokenId, extra: HashValue, whole: seq<TokenId>)
    requires d.current < |d.rows| && AllSpell(d, whole)
    ensures AllSpell(Put(d, size, token, extra), whole + [token])
  {
    var c, e := TakingRank(d, size), Put(d, size, token, extra);
    LengthenedSpells(d.rows[c], size, token, extra);
    forall q | 0 <= q < |e.rows| ensures Spells(e, q, whole + [token]) {
      assert Spells(d, q, whole);
    }
  }

  lemma LengthenedSpells(row: seq<Chain>, size: nat, token: TokenId, extra: HashValue)
    ensures TokensOf(EndOf(Lengthened(row, size, token, extra))) == TokensOf(EndOf(row)) + [token]
  {
    var end := EndOf(row);
    if HasRoom(row, size) {
      assert TokensOf(end.before) + (end.tokens + [token]) == TokensOf(end.before) + end.tokens + [token];
    }
  }

  lemma ChunkCloses(tokens: seq<TokenId>, size: nat, k: nat)
    ensures tokens[..Min(k * size, |tokens|)] + Chunk(tokens, size, k) == tokens[..Min((k + 1) * size, |tokens|)]
  {
    Scaled(k, k + 1, size);
  }

  lemma {:induction false} SeqChainSpells(tokens: seq<TokenId>, size: nat, extra: HashValue, k: nat)
    ensures TokensOf(SeqChain(tokens, size, extra, k)) == tokens[..Min(k * size, |tokens|)]
  {
    hide Chunk;
    if k > 0 {
      SeqChainSpells(tokens, size, extra, k - 1);
      ChunkCloses(tokens, size, k - 1);
      assert (k - 1 + 1) * size == k * size;
    }
  }

  /** What a rank has last is one of the blocks that are its. */
  lemma {:induction false} LastOn<T>(xs: seq<T>, n: nat, ranks: nat, q: nat) returns (j: nat)
    requires ranks > 0 && OnRank(xs, n, ranks, q) != []
    ensures j < |xs| && RankOf(j, n, ranks) == q
    ensures OnRank(xs, n, ranks, q)[|OnRank(xs, n, ranks, q)| - 1] == xs[j]
    decreases |xs|
  {
    var k := |xs| - 1;
    if RankOf(k, n, ranks) == q {
      j := k;
    } else {
      j := LastOn(xs[..k], n, ranks, q);
    }
  }

  lemma LastIsOn<T>(xs: seq<T>, n: nat, ranks: nat)
    requires ranks > 0 && xs != []
    ensures
      var row := OnRank(xs, n, ranks, RankOf(|xs| - 1, n, ranks));
      row != [] && row[|row| - 1] == xs[|xs| - 1]
  {
  }

  lemma PrefilledSpells(tokens: seq<TokenId>, size: nat, extra: HashValue, ranks: nat)
    requires size > 0 && ranks > 0 && tokens != []
    ensures AllSpell(Prefilled(tokens, size, extra, ranks), tokens)
  {
    hide SeqChain, RankOf, OnRank;
    var d, n := Prefilled(tokens, size, extra, ranks), CeilDiv(|tokens|, size);
    var chains := SeqChains(tokens, size, extra, n);
    CeilBounds(|tokens|, size);
    LastIsOn(chains, n, ranks);
    SeqChainSpells(tokens, size, extra, n);
    forall q | 0 <= q < ranks ensures Spells(d, q, tokens) {
      if d.rows[q] != [] {
        var j := LastOn(chains, n, ranks, q);
        SeqChainSpells(tokens, size, extra, j + 1);
        if q != d.current { FullBelow(|tokens|, size, j, n); }
      }
    }
  }

  lemma FullBelow(length: nat, size: nat, j: nat, n: nat)
    requires size > 0 && n == CeilDiv(length, size) && j < n && j != n - 1
    ensures (j + 1) * size < length
  {
    CeilBounds(length, size);
    Scaled(j + 1, n - 1, size);
    assert (n - 1) * size == n * size - size;
  }

  lemma {:induction false} PutAllSpells(d: Deal, size: nat, ts: seq<TokenId>, extra: HashValue, whole: seq<TokenId>)
    requires d.current < |d.rows| && AllSpell(d, whole)
    ensures AllSpell(PutAll(d, size, ts, extra), whole + ts)
    decreases |ts|
  {
    if ts == [] {
      assert whole + ts == whole;
    } else {
      PutAllSpells(d, size, ts[..|ts| - 1], extra, whole);
      PutSpells(PutAll(d, size, ts[..|ts| - 1], extra), size, ts[|ts| - 1], extra, whole + ts[..|ts| - 1]);
      assert whole + ts[..|ts| - 1] + [ts[|ts| - 1]] == whole + ts;
    }
  }

  /** Whatever the prompt and the tokens decoded so far: a block that decoding adds is filed behind the tokens it is
      computed behind exactly if there is one rank only. */
  lemma FiledRight(tokens: seq<TokenId>, ts: seq<TokenId>, size: nat, extra: HashValue, ranks: nat)
    requires size > 0 && ranks > 0 && tokens != []
    ensures
      var d := PutAll(Prefilled(tokens, size, extra, ranks), size, ts, extra);
      var row := d.rows[TakingRank(d, size)];
      !HasRoom(row, size) ==> (TokensOf(EndOf(row)) == tokens + ts <==> ranks == 1)
  {
    hide Prefilled, PutAll, HasRoom, EndOf, TokensOf;
    var d := PutAll(Prefilled(tokens, size, extra, ranks), size, ts, extra);
    PrefilledSpells(tokens, size, extra, ranks);
    PutAllSpells(Prefilled(tokens, size, extra, ranks), size, ts, extra, tokens);
    assert Spells(d, TakingRank(d, size), tokens + ts);
  }

  // ---------- whom that misleads ----------

  /** Rank `q` is one block behind what it had, or part of one, when `k` tokens have been decoded. */
  function Added(row: seq<Chain>, size: nat, decoded: seq<TokenId>, extra: HashValue, q: nat, k: nat): seq<Chain>
    requires k <= |decoded|
  {
    if k <= q * size then row
    else row + [Link(EndOf(row), decoded[q * size..Min((q + 1) * size, k)], extra)]
  }

  predicate AllFull(d: Deal, size: nat) {
    forall q :: 0 <= q < |d.rows| ==> !HasRoom(d.rows[q], size)
  }

  /** Where the next of a round's tokens goes. */
  lemma RoundPosition(k: nat, size: nat, ranks: nat)
    requires size > 0 && k < ranks * size
    ensures
      var c := k / size;
      c < ranks && c * size <= k < (c + 1) * size && (k > c * size ==> (k - 1) / size == c)
      && (k == c * size && k > 0 ==> c > 0 && (k - 1) / size == c - 1)
  {
    var c := k / size;
    BlockBounds(k, size);
    if c >= ranks { Scaled(ranks, c, size); }
    assert (c + 1) * size == c * size + size;
    if k > c * size {
      DivIs(k - 1, size, c);
    } else if k > 0 {
      QuotientPositive(c, size);
      DivIs(k - 1, size, c - 1);
    }
  }

  predicate Round(d: Deal, e: Deal, size: nat, decoded: seq<TokenId>, extra: HashValue, k: nat)
    requires k <= |decoded|
  {
    && |e.rows| == |d.rows| > 0 && size > 0
    && e.current == (if k == 0 then |d.rows| - 1 else (k - 1) / size)
    && forall q :: 0 <= q < |d.rows| ==> e.rows[q] == Added(d.rows[q], size, decoded, extra, q, k)
  }

  lemma AddedRoom(row: seq<Chain>, size: nat, decoded: seq<TokenId>, extra: HashValue, q: nat, k: nat)
    requires !HasRoom(row, size) && q * size <= k <= (q + 1) * size && k <= |decoded|
    ensures HasRoom(Added(row, size, decoded, extra, q, k), size) <==> q * size < k < (q + 1) * size
  {
    assert (q + 1) * size == q * size + size;
  }

  lemma AddedNext(row: seq<Chain>, size: nat, decoded: seq<TokenId>, extra: HashValue, q: nat, k: nat)
    requires !HasRoom(row, size) && q * size <= k < (q + 1) * size && k < |decoded|
    ensures Lengthened(Added(row, size, decoded, extra, q, k), size, decoded[k], extra)
         == Added(row, size, decoded, extra, q, k + 1)
  {
    AddedRoom(row, size, decoded, extra, q, k);
    var had := Added(row, size, decoded, extra, q, k);
    assert decoded[q * size..k] + [decoded[k]] == decoded[q * size..k + 1];
    if k > q * size {
      assert had[..|had| - 1] == row;
    } else {
      assert decoded[k..k + 1] == [decoded[k]];
    }
  }

  lemma AddedElsewhere(row: seq<Chain>, size: nat, decoded: seq<TokenId>, extra: HashValue, q: nat, k: nat)
    requires size > 0 && k < |decoded| && (k < q * size || (q + 1) * size <= k)
    ensures Added(row, size, decoded, extra, q, k) == Added(row, size, decoded, extra, q, k + 1)
  {
    assert (q + 1) * size == q * size + size;
  }

  /** The `k`-th token of a round goes to rank `k / size`. */
  lemma RoundRank(d: Deal, e: Deal, size: nat, decoded: seq<TokenId>, extra: HashValue, k: nat)
    requires k < |decoded| <= |d.rows| * size && AllFull(d, size) && Round(d, e, size, decoded, extra, k)
    requires e.current < |e.rows|
    ensures TakingRank(e, size) == k / size < |d.rows|
  {
    hide HasRoom, Added;
    var c, ranks := k / size, |d.rows|;
    RoundPosition(k, size, ranks);
    var q := e.current;
    if k == 0 {
      ModBelow(ranks, ranks);
      AddedFirst(d.rows[q], size, decoded, extra, q);
    } else {
      assert q == if k > c * size then c else c - 1;
      if q < c { assert (q + 1) * size == c * size; Scaled(q, c, size); ModBelow(c, ranks); }
      AddedRoom(d.rows[q], size, decoded, extra, q, k);
    }
  }

  lemma AddedFirst(row: seq<Chain>, size: nat, decoded: seq<TokenId>, extra: HashValue, q: nat)
    ensures Added(row, size, decoded, extra, q, 0) == row
  {
  }

  /** One more token of the round. */
  lemma RoundNext(d: Deal, e: Deal, size: nat, decoded: seq<TokenId>, extra: HashValue, k: nat)
    requires k < |decoded| <= |d.rows| * size && AllFull(d, size) && Round(d, e, size, decoded, extra, k)
    requires e.current < |e.rows|
    ensures Round(d, Put(e, size, decoded[k], extra), size, decoded, extra, k + 1)
  {
    hide HasRoom, Added, Lengthened, TakingRank;
    var c, f := k / size, Put(e, size, decoded[k], extra);
    RoundPosition(k, size, |d.rows|);
    RoundRank(d, e, size, decoded, extra, k);
    forall q | 0 <= q < |d.rows| ensures f.rows[q] == Added(d.rows[q], size, decoded, extra, q, k + 1) {
      if q == c {
        AddedNext(d.rows[q], size, decoded, extra, q, k);
      } else {
        if q < c { Scaled(q + 1, c, size); } else { Scaled(c + 1, q, size); }
        AddedElsewhere(d.rows[q], size, decoded, extra, q, k);
      }
    }
  }

  /** Over full ranks, a round of decoding adds one block to each, behind the rank's last. */
  lemma {:induction false} RoundAdds(d: Deal, size: nat, decoded: seq<TokenId>, extra: HashValue, k: nat)
    requires size > 0 && AllFull(d, size) && |d.rows| > 0 && d.current == |d.rows| - 1
    requires k <= |decoded| <= |d.rows| * size
    ensures Round(d, PutAll(d, size, decoded[..k], extra), size, decoded, extra, k)
  {
    hide HasRoom, Put, Added;
    if k == 0 {
      forall q | 0 <= q < |d.rows| ensures Added(d.rows[q], size, decoded, extra, q, 0) == d.rows[q] {
        AddedFirst(d.rows[q], size, decoded, extra, q);
      }
    } else {
      RoundAdds(d, size, decoded, extra, k - 1);
      RoundNext(d, PutAll(d, size, decoded[..k - 1], extra), size, decoded, extra, k - 1);
      assert decoded[..k][..k - 1] == decoded[..k - 1];
    }
  }

  lemma WholeBlocks(n: nat, size: nat)
    requires size > 0
    ensures CeilDiv(n * size, size) == n
  {
    assert (n + 1) * size == n * size + size;
    DivIs(n * size + size - 1, size, n);
  }

  /** A prompt of whole rounds leaves every rank full, the last rank with the last block. */
  lemma WholeRounds(prompt: seq<TokenId>, size: nat, extra: HashValue, ranks: nat, rounds: nat)
    requires size > 0 && ranks > 0 && rounds > 0 && |prompt| == rounds * ranks * size && prompt != []
    ensures
      var d := Prefilled(prompt, size, extra, ranks);
      && AllFull(d, size) && d.current == ranks - 1
      && EndOf(d.rows[ranks - 1]) == SeqChain(prompt, size, extra, rounds * ranks)
  {
    hide OnRank, SeqChain;
    var d, n := Prefilled(prompt, size, extra, ranks), rounds * ranks;
    var chains := SeqChains(prompt, size, extra, n);
    WholeBlocks(n, size);
    LastTurn(rounds, ranks);
    LastIsOn(chains, n, ranks);
    forall q | 0 <= q < ranks ensures !HasRoom(d.rows[q], size) {
      if d.rows[q] != [] {
        var j := LastOn(chains, n, ranks, q);
        Scaled(j + 1, n, size);
        FullChain(prompt, size, extra, j);
      }
    }
  }

  lemma FullChain(tokens: seq<TokenId>, size: nat, extra: HashValue, j: nat)
    requires size > 0 && (j + 1) * size <= |tokens|
    ensures SeqChain(tokens, size, extra, j + 1).Link? && |SeqChain(tokens, size, extra, j + 1).tokens| == size
  {
    ChunkSize(tokens, size, j);
  }

  lemma LastTurn(rounds: nat, ranks: nat)
    requires ranks > 0 && rounds > 0
    ensures rounds * ranks >= ranks && RankOf(rounds * ranks - 1, rounds * ranks, ranks) == ranks - 1
    ensures RankOf(rounds * ranks, rounds * ranks + 1, ranks) == ranks - 1
  {
    Scaled(1, rounds, ranks);
    assert (rounds - 1) * ranks + (ranks - 1) == rounds * ranks - 1;
    ModIs(rounds * ranks - 1, ranks, rounds - 1, ranks - 1);
  }

  lemma {:induction false} SeqChainFront(tokens: seq<TokenId>, more: seq<TokenId>, size: nat, extra: HashValue, k: nat)
    requires k * size <= |tokens|
    ensures SeqChain(tokens + more, size, extra, k) == SeqChain(tokens, size, extra, k)
  {
    if k > 0 {
      assert (k - 1) * size == k * size - size;
      SeqChainFront(tokens, more, size, extra, k - 1);
      assert (k - 1 + 1) * size == k * size;
    }
  }

  /** For every prompt of whole rounds, decoded on by `skipped` and then `last`, a block on the last rank: that block
      has the chain of the prompt `prompt + last`, whose last block belongs to the same rank. */
  lemma DecodedLikePrompt(prompt: seq<TokenId>, skipped: seq<TokenId>, last: seq<TokenId>, size: nat, extra: HashValue,
                          ranks: nat, rounds: nat)
    requires size > 0 && ranks > 0 && rounds > 0 && |prompt| == rounds * ranks * size && prompt != []
    requires |skipped| == (ranks - 1) * size && |last| == size
    ensures
      var d, n := Prefilled(prompt, size, extra, ranks), rounds * ranks;
      && PutAll(d, size, skipped + last, extra).rows[ranks - 1]
         == d.rows[ranks - 1] + [SeqChain(prompt + last, size, extra, n + 1)]
      && CeilDiv(|prompt + last|, size) == n + 1 && RankOf(n, n + 1, ranks) == ranks - 1
  {
    hide Prefilled, PutAll, RankOf, HasRoom;
    var d, n, decoded := Prefilled(prompt, size, extra, ranks), rounds * ranks, skipped + last;
    assert (ranks - 1 + 1) * size == ranks * size;
    WholeRounds(prompt, size, extra, ranks, rounds);
    LastTurn(rounds, ranks);
    RoundAdds(d, size, decoded, extra, |decoded|);
    assert decoded[..|decoded|] == decoded && decoded[|skipped|..] == last;
    SeqChainFront(prompt, last, size, extra, n);
    assert (n + 1) * size == |prompt| + size;
    WholeBlocks(n + 1, size);
    assert Chunk(prompt + last, size, n) == last;
  }
}
