/** Which blocks of a sequence spread over several ranks are already computed, locally and in the pool. */
module ComputedPrefix {
  import opened Basics
  import opened Arithmetic
  import opened Chunking
  import opened BlockTableSpec
  import opened RankPlacement

  /** With `c[r]` computed blocks on each rank, the block in turn `j` is computed. */
  predicate InTurn(c: seq<nat>, j: nat)
    requires |c| > 0
  {
    j / |c| < c[j % |c|]
  }

  /** The first `p` blocks in turn are computed, the next one is not. */
  ghost predicate LongestInTurn(c: seq<nat>, p: nat)
    requires |c| > 0
  {
    (forall j :: 0 <= j < p ==> InTurn(c, j)) && !InTurn(c, p)
  }

  lemma InTurnAt(c: seq<nat>, j: nat, q: nat, m: nat)
    requires |c| > 0 && j == q * |c| + m && m < |c|
    ensures InTurn(c, j) <==> q < c[m]
  {
    ModIs(j, |c|, q, m);
  }

  /** `m` full rounds and the `lead` ranks ahead of the slowest make the longest prefix. */
  lemma LongestIs(c: seq<nat>, m: nat, lead: nat)
    requires lead < |c| && c[lead] == m
    requires forall r :: 0 <= r < |c| ==> m <= c[r]
    requires forall r :: 0 <= r < lead ==> m < c[r]
    ensures LongestInTurn(c, m * |c| + lead)
  {
    var p := m * |c| + lead;
    InTurnAt(c, p, m, lead);
    forall j | 0 <= j < p ensures InTurn(c, j) {
      BlockBounds(j, |c|);
      EarlierTurn(j, j / |c|, j % |c|, |c|, m, lead);
    }
  }

  /** A position before `(m, lead)` is in an earlier round, or further ahead in round `m`. */
  lemma EarlierTurn(j: nat, q: nat, r: nat, d: nat, m: nat, lead: nat)
    requires j == q * d + r && r < d && lead < d && j < m * d + lead
    ensures q < m || (q == m && r < lead)
  {
    assert (m + 1) * d == m * d + d;
    if q > m { Scaled(m + 1, q, d); }
  }

  /** `counts` deals the first `p` blocks over the ranks, and these are the longest computed prefix in turn. */
  ghost predicate Levelled(c: seq<nat>, counts: seq<nat>, p: nat)
    requires |c| > 0
  {
    && LongestInTurn(c, p)
    && |counts| == |c| && forall r :: 0 <= r < |c| ==> counts[r] == Dealt(p, |c|, r)
  }

  lemma LevelledIs(c: seq<nat>, counts: seq<nat>, least: nat, lead: nat)
    requires lead < |c| == |counts| && c[lead] == least
    requires forall r :: 0 <= r < |c| ==> least <= c[r]
    requires forall r :: 0 <= r < lead ==> least < c[r]
    requires forall r :: 0 <= r < |c| ==> counts[r] == least + (if r < lead then 1 else 0)
    ensures exists p: nat :: Levelled(c, counts, p)
  {
    hide LongestInTurn, Dealt;
    var p: nat := least * |c| + lead;
    LongestIs(c, least, lead);
    forall r | 0 <= r < |c| ensures counts[r] == Dealt(p, |c|, r) { RoundRobin(p, |c|, r, least, lead); }
    assert Levelled(c, counts, p);
  }

  /** The counts after the levelling loops: exactly the longest prefix in turn, dealt over the ranks. */
  method LevelComputedBlockNum(c: seq<nat>, maxBlocks: nat) returns (counts: seq<nat>)
    requires |c| > 0 && forall r :: 0 <= r < |c| ==> c[r] <= maxBlocks
    ensures exists p: nat :: Levelled(c, counts, p)
  {
    hide Levelled;
    var least := maxBlocks;
    for r := 0 to |c|
      invariant forall k :: 0 <= k < r ==> least <= c[k]
      invariant least <= maxBlocks && (least == maxBlocks || exists k :: 0 <= k < r && c[k] == least)
    {
      least := Min(least, c[r]);
    }
    assert c[0] >= least;
    counts := c;
    var flag := true;
    ghost var lead := 0;
    for r := 0 to |c|
      invariant |counts| == |c| && lead <= r && (flag <==> lead == r)
      invariant forall k :: r <= k < |c| ==> counts[k] == c[k]
      invariant forall k :: 0 <= k < lead ==> c[k] > least && counts[k] == least + 1
      invariant forall k :: lead <= k < r ==> counts[k] == least
      invariant !flag ==> c[lead] == least
    {
      if flag && counts[r] > least {
        counts := counts[r := least + 1];
        lead := lead + 1;
      } else {
        flag := false;
        counts := counts[r := least];
      }
    }
    LevelledIs(c, counts, least, lead);
  }

  // ---------- tables as they are placed ----------

  /** Whether the last of `n` placed blocks is on the rank whose turn it is. */
  predicate LastInTurn(n: nat, ranks: nat)
    requires ranks > 0
  {
    n <= ranks || (n - 1) % ranks == ranks - 1
  }

  /** How many of the blocks are placed in turn. */
  function Turns(n: nat, ranks: nat): nat
    requires ranks > 0
  {
    if LastInTurn(n, ranks) then n else n - 1
  }

  /** The shares of the ranks: the blocks in turn, and perhaps the last one. */
  lemma SharesInTurn(n: nat, ranks: nat, r: nat)
    requires r < ranks
    ensures Share(n, n, ranks, r)
         == Dealt(Turns(n, ranks), ranks, r) + (if !LastInTurn(n, ranks) && r == ranks - 1 then 1 else 0)
  {
    if n <= ranks {
      ShareDealt(n, n, ranks, r);
    } else {
      ShareDealt(n - 1, n, ranks, r);
    }
  }

  lemma IndexAgainst(t: nat, q: nat, m: nat, d: nat, i: nat, r: nat)
    requires t == q * d + m && m < d && r < d
    ensures i * d + r < t ==> i < q + (if r < m then 1 else 0)
    ensures i * d + r == t ==> i == q && r == m
  {
    if i * d + r < t { EarlierTurn(i * d + r, i, r, d, q, m); }
    if i * d + r == t { ModIs(t, d, i, r); ModIs(t, d, q, m); }
  }

  lemma IndexInShare(n: nat, ranks: nat, i: nat, r: nat, q: nat, m: nat)
    requires r < ranks && Turns(n, ranks) == q * ranks + m && m < ranks
    ensures i < q + (if r < m then 1 else 0) ==> i < Share(n, n, ranks, r)
    ensures i == q && r == m ==> i >= Share(n, n, ranks, r)
  {
    var t := Turns(n, ranks);
    SharesInTurn(n, ranks, r);
    RoundRobin(t, ranks, r, q, m);
    if !LastInTurn(n, ranks) {
      OutOfTurn(n, ranks);
      ModIs(t, ranks, q, m);
    }
  }

  /** Index `i` of rank `r` exists for every block in turn, and not for the one that would come next. */
  lemma IndexInTable(n: nat, ranks: nat, i: nat, r: nat)
    requires r < ranks
    ensures i * ranks + r < Turns(n, ranks) ==> i < Share(n, n, ranks, r)
    ensures i * ranks + r == Turns(n, ranks) ==> i >= Share(n, n, ranks, r)
  {
    hide Turns; hide Share;
    var t := Turns(n, ranks);
    BlockBounds(t, ranks);
    var q, m := t / ranks, t % ranks;
    IndexAgainst(t, q, m, ranks, i, r);
    IndexInShare(n, ranks, i, r, q, m);
  }

  lemma OutOfTurn(n: nat, ranks: nat)
    requires ranks > 0 && !LastInTurn(n, ranks)
    ensures n > ranks && (n - 1) % ranks < ranks - 1
  {
  }

  /** In strict turn, rank 0 holds a row exactly when the row starts before the end. */
  lemma DealtRow(t: nat, ranks: nat, i: nat)
    requires ranks > 0
    ensures i < Dealt(t, ranks, 0) <==> i * ranks < t
  {
    hide Dealt;
    var q, m := t / ranks, t % ranks;
    assert t == q * ranks + m && m < ranks by { BlockBounds(t, ranks); }
    RoundRobin(t, ranks, 0, q, m);
    RowStarts(t, q, m, ranks, i);
  }

  /** Rank 0 holds a row exactly when the row starts before the last block in turn. */
  lemma FirstOfRow(n: nat, ranks: nat, i: nat)
    requires ranks > 0
    ensures i < Share(n, n, ranks, 0) <==> i * ranks < Turns(n, ranks)
  {
    hide Share, Dealt, Turns, LastInTurn;
    SharesInTurn(n, ranks, 0);
    OneRankInTurn(n);
    DealtRow(Turns(n, ranks), ranks, i);
  }

  lemma OneRankInTurn(n: nat)
    ensures LastInTurn(n, 1)
  {
    if n > 1 { ModIs(n - 1, 1, n - 1, 0); }
  }

  lemma RowStarts(t: nat, q: nat, m: nat, d: nat, i: nat)
    requires t == q * d + m && m < d
    ensures i * d < t <==> i < q + (if 0 < m then 1 else 0)
  {
    assert (q + 1) * d == q * d + d;
    if i > q { Scaled(q + 1, i, d); } else { Scaled(i, q, d); }
    if i < q { Scaled(i + 1, q, d); assert (i + 1) * d == i * d + d; }
  }

  /** Block `j` of the table is computed if its rank's computed blocks reach it. */
  predicate BlockComputed(c: seq<nat>, n: nat, j: nat)
    requires |c| > 0
  {
    Share(j, n, |c|, RankOf(j, n, |c|)) < c[RankOf(j, n, |c|)]
  }

  lemma ComputedInTurn(c: seq<nat>, n: nat, j: nat)
    requires |c| > 0 && j < Turns(n, |c|)
    ensures BlockComputed(c, n, j) <==> InTurn(c, j)
  {
    BlockBounds(j, |c|);
    ShareDealt(j, n, |c|, j % |c|);
    RoundRobin(j, |c|, j % |c|, j / |c|, j % |c|);
    if j + 1 == n && j >= |c| { assert LastInTurn(n, |c|); }
  }

  lemma EndOfTurns(c: seq<nat>, n: nat)
    requires |c| > 0 && forall r :: 0 <= r < |c| ==> c[r] <= Share(n, n, |c|, r)
    ensures !InTurn(c, Turns(n, |c|))
  {
    hide Turns; hide Share;
    var t := Turns(n, |c|);
    BlockBounds(t, |c|);
    IndexInShare(n, |c|, t / |c|, t % |c|, t / |c|, t % |c|);
  }

  /** The prefix in turn is the longest computed prefix of the table, unless only its last block is left
      out, which is computed but sits out of turn. */
  lemma PrefixOfTable(c: seq<nat>, n: nat, p: nat)
    requires |c| > 0 && LongestInTurn(c, p)
    requires forall r :: 0 <= r < |c| ==> c[r] <= Share(n, n, |c|, r)
    ensures p <= Turns(n, |c|) <= n
    ensures forall j :: 0 <= j < p ==> BlockComputed(c, n, j)
    ensures p < n && BlockComputed(c, n, p) <==> p == n - 1 && !LastInTurn(n, |c|) && BlockComputed(c, n, n - 1)
  {
    var t := Turns(n, |c|);
    EndOfTurns(c, n);
    hide InTurn; hide Share;
    forall j | 0 <= j < p ensures BlockComputed(c, n, j) { ComputedInTurn(c, n, j); }
    if p < t { ComputedInTurn(c, n, p); }
  }

  /** Of a table computed in full, the prefix in turn is everything, or everything but a last block out of turn. */
  lemma FullTable(c: seq<nat>, n: nat, p: nat)
    requires |c| > 0 && LongestInTurn(c, p)
    requires forall r :: 0 <= r < |c| ==> c[r] == Share(n, n, |c|, r)
    ensures p == if LastInTurn(n, |c|) then n else n - 1
  {
    EndOfTurns(c, n);
    hide Share;
    if p < Turns(n, |c|) {
      BlockBounds(p, |c|);
      IndexInTable(n, |c|, p / |c|, p % |c|);
    }
  }

  /** Three computed blocks over two ranks count as two: the last one is on the last rank, where it is not its turn. */
  lemma LastBlockOutOfTurn()
    ensures
      var c := [1, 2];
      && (forall r :: 0 <= r < 2 ==> c[r] == Share(3, 3, 2, r))
      && (forall j :: 0 <= j < 3 ==> BlockComputed(c, 3, j)) && LongestInTurn(c, 2)
  {
    var c := [1, 2];
    assert 0 / 2 == 0 && 0 % 2 == 0 && 1 / 2 == 0 && 1 % 2 == 1 && 2 / 2 == 1 && 2 % 2 == 0;
    assert InTurn(c, 0) && InTurn(c, 1) && !InTurn(c, 2);
  }

  // ---------- the part of the prefix that the pool holds ----------

  /** What the pool is asked for: a hash and the rank whose share it is. */
  type Key = (HashValue, nat)

  /** The key of the block in turn `j`. */
  function KeyOf(hashes: seq<seq<HashValue>>, j: nat): Key
    requires |hashes| > 0
  {
    var i, r := j / |hashes|, j % |hashes|;
    (if i < |hashes[r]| then hashes[r][i] else INVALID_HASH_VALUE, r)
  }

  ghost predicate Asked(keys: seq<Key>, hashes: seq<seq<HashValue>>, p: nat)
    requires |hashes| > 0
  {
    forall k :: 0 <= k < |keys| ==> keys[k] == KeyOf(hashes, p + k)
  }

  /** Where the hashes of `n` blocks are dealt over the ranks as the blocks are placed, the keys asked for are those of
      the sequence itself, in its order, each with the rank its block is on. */
  lemma AskedInOrder(keys: seq<Key>, hs: seq<HashValue>, hashes: seq<seq<HashValue>>, p: nat)
    requires |hashes| > 0 && forall q :: 0 <= q < |hashes| ==> hashes[q] == OnRank(hs, |hs|, |hashes|, q)
    requires Asked(keys, hashes, p) && p + |keys| <= Turns(|hs|, |hashes|)
    ensures forall k :: 0 <= k < |keys| ==>
      p + k < |hs| && keys[k] == (hs[p + k], RankOf(p + k, |hs|, |hashes|))
  {
    hide Turns, Share, OnRank;
    forall k | 0 <= k < |keys|
      ensures p + k < |hs| && keys[k] == (hs[p + k], RankOf(p + k, |hs|, |hashes|))
    {
      TurnsBound(|hs|, |hashes|);
      TurnIsRank(p + k, |hs|, |hashes|);
      OnRankAt(hs, |hashes|, p + k);
    }
  }

  lemma TurnsBound(n: nat, ranks: nat)
    requires ranks > 0
    ensures Turns(n, ranks) <= n
  {
  }

  /** A block in turn is the next of the rank whose turn it is. */
  lemma TurnIsRank(j: nat, n: nat, ranks: nat)
    requires ranks > 0 && j < Turns(n, ranks)
    ensures RankOf(j, n, ranks) == j % ranks && Share(j, n, ranks, j % ranks) == j / ranks
  {
    hide Share, Dealt;
    var q, m := j / ranks, j % ranks;
    assert j == q * ranks + m && m < ranks by { BlockBounds(j, ranks); }
    TurnsBound(n, ranks);
    ShareDealt(j, n, ranks, m);
    RoundRobin(j, ranks, m, q, m);
    RankInTurn(j, n, ranks);
  }

  lemma RankInTurn(j: nat, n: nat, ranks: nat)
    requires ranks > 0 && j < Turns(n, ranks)
    ensures RankOf(j, n, ranks) == j % ranks
  {
    if j + 1 == n && j >= ranks { assert LastInTurn(n, ranks); }
  }

  /** Where a block is found on its rank. */
  lemma OnRankAt(hs: seq<HashValue>, ranks: nat, j: nat)
    requires ranks > 0 && j < |hs|
    ensures
      var r := RankOf(j, |hs|, ranks);
      var mine := OnRank(hs, |hs|, ranks, r);
      Share(j, |hs|, ranks, r) < |mine| && mine[Share(j, |hs|, ranks, r)] == hs[j]
  {
    var n, r := |hs|, RankOf(j, |hs|, ranks);
    assert hs[..j + 1] == hs[..j] + [hs[j]];
    OnRankNext(hs[..j], hs[j], n, ranks, r);
    OnRankSize(hs[..j], n, ranks, r);
    OnRankGrows(hs, j + 1, n, ranks, r);
  }

  /** The rank whose turn is next, and its count. */
  method NextInTurn(counts: seq<nat>, ghost p: nat) returns (rankIdx: nat)
    requires |counts| > 0 && forall r :: 0 <= r < |counts| ==> counts[r] == Dealt(p, |counts|, r)
    ensures rankIdx < |counts| && counts[rankIdx] * |counts| + rankIdx == p
  {
    ghost var q, m := p / |counts|, p % |counts|;
    BlockBounds(p, |counts|);
    forall r | 0 <= r < |counts| ensures counts[r] == q + (if r < m then 1 else 0) { RoundRobin(p, |counts|, r, q, m); }
    rankIdx := 0;
    while rankIdx < |counts| && counts[|counts| - 1] < counts[rankIdx]
      invariant rankIdx <= m
      decreases |counts| - rankIdx
    {
      ModIs(rankIdx + 1, |counts|, 0, rankIdx + 1);
      rankIdx := (rankIdx + 1) % |counts|;
    }
  }

  lemma AskStep(keys: seq<Key>, hashes: seq<seq<HashValue>>, i: nat, cur: nat, n: nat, p: nat)
    requires cur < |hashes| && i < |hashes[cur]| && |hashes[cur]| == Share(n, n, |hashes|, cur)
    requires Asked(keys, hashes, p) && p + |keys| == i * |hashes| + cur <= Turns(n, |hashes|)
    ensures Asked(keys + [(hashes[cur][i], cur)], hashes, p)
    ensures p + |keys| + 1 == i * |hashes| + (cur + 1) <= Turns(n, |hashes|)
  {
    hide Share, Turns;
    IndexInTable(n, |hashes|, i, cur);
    ModIs(i * |hashes| + cur, |hashes|, i, cur);
  }

  lemma AskEnds(asked: nat, share: nat, i: nat, cur: nat, n: nat, ranks: nat)
    requires ranks > 0 && cur <= ranks && asked == i * ranks + cur <= Turns(n, ranks)
    requires cur < ranks ==> share == Share(n, n, ranks, cur) <= i
    ensures asked == Min((i + 1) * ranks, Turns(n, ranks))
  {
    hide Share, Turns;
    assert (i + 1) * ranks == i * ranks + ranks;
    if cur < ranks { IndexInTable(n, ranks, i, cur); }
  }

  /** Asks for row `i` from rank `from` on, as far as the table goes. */
  method AskRow(keys: seq<Key>, hashes: seq<seq<HashValue>>, i: nat, from: nat, ghost n: nat, ghost p: nat)
    returns (more: seq<Key>)
    requires |hashes| > 0 && forall r :: 0 <= r < |hashes| ==> |hashes[r]| == Share(n, n, |hashes|, r)
    requires from < |hashes| && Asked(keys, hashes, p) && p + |keys| == i * |hashes| + from <= Turns(n, |hashes|)
    ensures Asked(more, hashes, p) && p + |more| == Min((i + 1) * |hashes|, Turns(n, |hashes|))
  {
    hide *;
    more := keys;
    var cur := from;
    while cur < |hashes| && i < |hashes[cur]|
      invariant from <= cur <= |hashes| && Asked(more, hashes, p)
      invariant p + |more| == i * |hashes| + cur <= Turns(n, |hashes|)
    {
      AskStep(more, hashes, i, cur, n, p);
      more := more + [(hashes[cur][i], cur)];
      cur := cur + 1;
    }
    AskEnds(p + |more|, if cur < |hashes| then |hashes[cur]| else 0, i, cur, n, |hashes|);
  }

  /** The k-th key asked for is that of the k-th block behind the local prefix. */
  method AskKeys(counts: seq<nat>, hashes: seq<seq<HashValue>>, ghost n: nat, ghost p: nat) returns (keys: seq<Key>)
    requires |counts| == |hashes| > 0 && p <= Turns(n, |hashes|)
    requires forall r :: 0 <= r < |hashes| ==> |hashes[r]| == Share(n, n, |hashes|, r)
    requires forall r :: 0 <= r < |counts| ==> counts[r] == Dealt(p, |counts|, r)
    ensures |keys| == Turns(n, |hashes|) - p && Asked(keys, hashes, p)
  {
    var rankIdx := NextInTurn(counts, p);
    keys := [];
    var i := counts[rankIdx];
    FirstOfRow(n, |hashes|, i);
    while i < |hashes[0]|
      invariant Asked(keys, hashes, p) && i >= counts[rankIdx]
      invariant if i == counts[rankIdx] then keys == [] else p + |keys| == Min(i * |hashes|, Turns(n, |hashes|))
      invariant i < |hashes[0]| <==> i * |hashes| < Turns(n, |hashes|)
    {
      keys := AskRow(keys, hashes, i, if i == counts[rankIdx] then rankIdx else 0, n, p);
      i := i + 1;
      FirstOfRow(n, |hashes|, i);
    }
  }

  function LeadingHits(answers: seq<bool>): nat {
    if answers == [] || !answers[0] then 0 else 1 + LeadingHits(answers[1..])
  }

  lemma {:induction false} LeadingHitsIs(answers: seq<bool>, k: nat)
    requires k <= |answers| && (forall j :: 0 <= j < k ==> answers[j]) && (k < |answers| ==> !answers[k])
    ensures LeadingHits(answers) == k
  {
    if k > 0 { LeadingHitsIs(answers[1..], k - 1); }
  }

  function DealtTo(k: nat, ranks: nat, upTo: nat): nat
    requires ranks > 0
  {
    if upTo == 0 then 0 else DealtTo(k, ranks, upTo - 1) + Dealt(k, ranks, upTo - 1)
  }

  lemma {:induction false} DealtToNext(k: nat, ranks: nat, upTo: nat)
    requires ranks > 0 && k > 0
    ensures DealtTo(k, ranks, upTo) == DealtTo(k - 1, ranks, upTo) + (if (k - 1) % ranks < upTo then 1 else 0)
  {
    if upTo > 0 { DealtToNext(k, ranks, upTo - 1); }
  }

  lemma {:induction false} NoneDealt(ranks: nat, upTo: nat)
    requires ranks > 0
    ensures DealtTo(0, ranks, upTo) == 0
  {
    if upTo > 0 { NoneDealt(ranks, upTo - 1); }
  }

  /** Nothing is lost in dealing. */
  lemma {:induction false} DealtSum(k: nat, ranks: nat)
    requires ranks > 0
    ensures DealtTo(k, ranks, ranks) == k
  {
    if k == 0 {
      NoneDealt(ranks, ranks);
    } else {
      DealtSum(k - 1, ranks);
      DealtToNext(k, ranks, ranks);
      BlockBounds(k - 1, ranks);
    }
  }

  /** Extends the local prefix `p` by the leading hits of the pool, whatever it answers. */
  method RemoteComputedBlockNum(counts: seq<nat>, hashes: seq<seq<HashValue>>, lookUp: seq<Key> -> seq<bool>,
                                ghost n: nat, ghost p: nat)
    returns (remote: seq<nat>, ghost keys: seq<Key>)
    requires |counts| == |hashes| > 0 && p <= Turns(n, |hashes|)
    requires forall r :: 0 <= r < |hashes| ==> |hashes[r]| == Share(n, n, |hashes|, r)
    requires forall r :: 0 <= r < |counts| ==> counts[r] == Dealt(p, |counts|, r)
    requires forall ks: seq<Key> :: |lookUp(ks)| == |ks|
    ensures |keys| == Turns(n, |hashes|) - p && Asked(keys, hashes, p)
    ensures |remote| == |counts|
    ensures forall r :: 0 <= r < |remote| ==> remote[r] == Dealt(p + LeadingHits(lookUp(keys)), |remote|, r)
  {
    var asked := AskKeys(counts, hashes, n, p);
    keys := asked;
    remote := counts;
    if asked == [] {
      return;
    }
    var answers := lookUp(asked);
    var startIdx := 0;
    for r := 0 to |counts|
      invariant startIdx == DealtTo(p, |counts|, r)
    {
      startIdx := startIdx + counts[r];
    }
    DealtSum(p, |counts|);
    var idx := 0;
    while idx < |answers| && answers[idx]
      invariant idx <= |answers| && |remote| == |counts| && forall j :: 0 <= j < idx ==> answers[j]
      invariant forall r :: 0 <= r < |remote| ==> remote[r] == Dealt(p + idx, |remote|, r)
    {
      var turn := (idx + startIdx) % |remote|;
      remote := remote[turn := remote[turn] + 1];
      idx := idx + 1;
    }
    LeadingHitsIs(answers, idx);
  }
}
