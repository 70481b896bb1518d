/** How the warm-up splits its prefill tokens into request lengths. */
module WarmupSplit {
  import opened Basics
  import opened Arithmetic

  function Sum(lens: seq<nat>): nat {
    if lens == [] then 0 else Sum(lens[..|lens| - 1]) + lens[|lens| - 1]
  }

  function Repeat(length: nat, count: nat): seq<nat> {
    seq(count, _ => length)
  }

  lemma SumPush(lens: seq<nat>, x: nat)
    ensures Sum(lens + [x]) == Sum(lens) + x
  {
    assert (lens + [x])[..|lens|] == lens;
  }

  lemma {:induction false} SumRepeat(length: nat, count: nat)
    ensures Sum(Repeat(length, count)) == length * count
  {
    if count > 0 {
      assert Repeat(length, count) == Repeat(length, count - 1) + [length];
      SumPush(Repeat(length, count - 1), length);
      SumRepeat(length, count - 1);
    }
  }

  lemma {:induction false} SumPrefix(lens: seq<nat>, n: nat)
    requires n <= |lens|
    ensures Sum(lens[..n]) <= Sum(lens)
    decreases |lens|
  {
    if n < |lens| {
      SumPrefix(lens[..|lens| - 1], n);
      assert lens[..|lens| - 1][..n] == lens[..n];
    } else {
      assert lens[..n] == lens;
    }
  }

  lemma {:induction false} SumUpdate(lens: seq<nat>, k: nat, x: nat)
    requires k < |lens|
    ensures Sum(lens[k := lens[k] + x]) == Sum(lens) + x
    decreases |lens|
  {
    var n := |lens| - 1;
    var more := lens[k := lens[k] + x];
    if k < n {
      SumUpdate(lens[..n], k, x);
      assert more[..n] == lens[..n][k := lens[k] + x];
    } else {
      assert more[..n] == lens[..n];
    }
  }

  // ---------- alignment ----------

  function Alignment(cp: nat): nat {
    if cp > 1 then cp * 2 else 1
  }

  function Align(length: nat, alignment: nat): nat
    requires alignment > 0
  {
    (length + alignment - 1) / alignment * alignment
  }

  function AlignedLength(length: nat, cp: nat): nat {
    if cp > 1 then Align(length, Alignment(cp)) else length
  }

  ghost predicate Multiple(x: nat, d: nat) {
    exists q: nat :: IsTimes(x, d, q)
  }

  predicate IsTimes(x: nat, d: nat, q: nat) {
    x == q * d
  }

  /** The least multiple that is no smaller. */
  lemma AlignIs(length: nat, d: nat)
    requires d > 0
    ensures length <= Align(length, d) < length + d && Multiple(Align(length, d), d)
  {
    BlockBounds(length + d - 1, d);
    assert IsTimes(Align(length, d), d, (length + d - 1) / d);
  }

  lemma MultipleDiff(x: nat, y: nat, z: nat, count: nat, d: nat)
    requires d > 0 && Multiple(x, d) && Multiple(y, d) && x == y * count + z
    ensures Multiple(z, d)
  {
    var p: nat :| IsTimes(x, d, p);
    var q: nat :| IsTimes(y, d, q);
    assert y * count == (q * count) * d;
    assert z == (p - q * count) * d;
    assert (p + 1) * d == p * d + d;
    if p < q * count { Scaled(p + 1, q * count, d); }
    assert IsTimes(z, d, p - q * count);
  }

  lemma MultipleSum(x: nat, y: nat, d: nat)
    requires Multiple(x, d) && Multiple(y, d)
    ensures Multiple(x + y, d)
  {
    var p: nat :| IsTimes(x, d, p);
    var q: nat :| IsTimes(y, d, q);
    assert IsTimes(x + y, d, p + q);
  }

  // ---------- the split ----------

  /** At most `batch` positive lengths that together use at most `total` tokens. */
  ghost predicate FitsIn(lens: seq<nat>, batch: nat, total: nat) {
    |lens| <= batch && Sum(lens) <= total && forall k :: 0 <= k < |lens| ==> lens[k] > 0
  }

  ghost predicate AllMultiples(lens: seq<nat>, d: nat) {
    forall k :: 0 <= k < |lens| ==> Multiple(lens[k], d)
  }

  ghost predicate NearlyEqual(lens: seq<nat>) {
    forall j, k :: 0 <= j < |lens| && 0 <= k < |lens| ==> lens[j] <= lens[k] + 1
  }

  /** All but the last are `length`, and the last is no longer. */
  ghost predicate WholeBut(lens: seq<nat>, length: nat) {
    && (forall k :: 0 <= k < |lens| - 1 ==> lens[k] == length)
    && (lens != [] ==> lens[|lens| - 1] <= length)
  }

  /** Whole lengths and what remains. */
  method FillUp(total: nat, length: nat) returns (lens: seq<nat>)
    requires length > 0
    ensures Sum(lens) == total && |lens| == total / length + (if total % length > 0 then 1 else 0)
    ensures forall k :: 0 <= k < |lens| ==> 0 < lens[k] <= length
    ensures forall d: nat :: d > 0 && Multiple(total, d) && Multiple(length, d) ==> AllMultiples(lens, d)
    ensures WholeBut(lens, length) && (total % length == 0 ==> forall k :: 0 <= k < |lens| ==> lens[k] == length)
  {
    hide Sum, Multiple;
    var full, remainder := total / length, total % length;
    BlockBounds(total, length);
    SumRepeat(length, full);
    lens := Repeat(length, full);
    if remainder > 0 {
      SumPush(lens, remainder);
      lens := lens + [remainder];
    }
    forall d: nat | d > 0 && Multiple(total, d) && Multiple(length, d) ensures AllMultiples(lens, d) {
      MultipleDiff(total, length, remainder, full, d);
    }
  }

  function FollowingIdx(idx: nat, batch: nat): nat
    requires batch > 0
  {
    (idx + 1) % batch
  }

  lemma NotRoundYet(idx: nat, batch: nat)
    requires idx + 1 < batch
    ensures FollowingIdx(idx, batch) == idx + 1
  {
    ModIs(idx + 1, batch, 0, idx + 1);
  }

  /** Hands out `extra` tokens in turn, `step` at a time, to `batch` requests of `length`. */
  method HandOut(length: nat, batch: nat, extra: nat, step: nat) returns (lens: seq<nat>)
    requires extra < batch && step > 0
    ensures |lens| == batch && Sum(lens) == length * batch + extra
    ensures forall k :: 0 <= k < batch ==> length <= lens[k] <= length + step
    ensures Multiple(length, step) && Multiple(extra, step) ==> AllMultiples(lens, step)
  {
    hide Sum, Multiple, FollowingIdx;
    lens := Repeat(length, batch);
    SumRepeat(length, batch);
    ghost var sum := Sum(lens);
    var remaining: nat, idx: nat := extra, 0;
    while remaining > 0
      invariant |lens| == batch && Sum(lens) + remaining == sum + extra
      invariant idx + remaining <= extra
      invariant forall k :: 0 <= k < idx ==> length <= lens[k] <= length + step
      invariant forall k :: idx <= k < batch ==> lens[k] == length
      invariant Multiple(length, step) && Multiple(extra, step) ==>
        AllMultiples(lens, step) && Multiple(remaining, step)
    {
      var add := Min(step, remaining);
      if Multiple(length, step) && Multiple(extra, step) { StepOff(length, remaining, step); }
      SumUpdate(lens, idx, add);
      lens := lens[idx := lens[idx] + add];
      remaining := remaining - add;
      NotRoundYet(idx, batch);
      idx := FollowingIdx(idx, batch);
    }
  }

  /** A positive multiple leaves a whole step, and stays a multiple. */
  lemma StepOff(length: nat, remaining: nat, step: nat)
    requires step > 0 && remaining > 0 && Multiple(length, step) && Multiple(remaining, step)
    ensures Min(step, remaining) == step && Multiple(remaining - step, step) && Multiple(length + step, step)
  {
    var q: nat :| IsTimes(remaining, step, q);
    assert q > 0;
    Scaled(1, q, step);
    assert IsTimes(remaining - step, step, q - 1);
    assert IsTimes(step, step, 1);
    MultipleSum(length, step, step);
  }

  /** With an aligned base above the plain one, the requests are few enough. */
  lemma FewRequests(total: nat, batch: nat, base: nat, aligned: nat)
    requires batch > 0 && base == total / batch && aligned >= base > 0
    ensures aligned > base ==> total / aligned + (if total % aligned > 0 then 1 else 0) <= batch
    ensures aligned == base && total / aligned + (if total % aligned > 0 then 1 else 0) <= batch ==>
      total % aligned == 0
    ensures base * batch <= total < base * batch + batch
  {
    BlockBounds(total, batch);
    BlockBounds(total, aligned);
    assert (base + 1) * batch == base * batch + batch;
    var full := total / aligned;
    if aligned > base {
      Scaled(base + 1, aligned, batch);
      if batch <= full { Scaled(batch, full, aligned); }
    } else if full < batch {
      Scaled(full + 1, batch, aligned);
    }
  }

  lemma BasePositive(total: nat, batch: nat)
    requires 0 < batch <= total
    ensures total / batch > 0
  {
    BlockBounds(total, batch);
  }

  lemma BaseBelow(total: nat, batch: nat, maxLen: nat)
    requires batch > 0 && maxLen * batch > total
    ensures total / batch < maxLen
  {
    BlockBounds(total, batch);
    if maxLen <= total / batch { Scaled(maxLen, total / batch, batch); }
  }

  /** How the tokens are spread when `base` is what each of `batch` requests would get: without context parallelism
      every request gets that or one more; with it all but the last get it aligned, unless it is aligned already, and
      then every request gets it and at most one alignment more. */
  ghost predicate Even(lens: seq<nat>, base: nat, batch: nat, cp: nat) {
    var aligned := AlignedLength(base, cp);
    if cp > 1 && aligned > base then WholeBut(lens, aligned)
    else |lens| == batch && forall k :: 0 <= k < |lens| ==> base <= lens[k] <= base + Alignment(cp)
  }

  /** A quotient that is aligned already: whole lengths of it fill the batch. */
  lemma FullBatch(total: nat, batch: nat, base: nat)
    requires batch > 0 && base == total / batch > 0
    ensures total / base + (if total % base > 0 then 1 else 0) <= batch ==> total / base == batch && total % base == 0
  {
    BlockBounds(total, batch);
    BlockBounds(total, base);
    if total / base < batch { Scaled(total / base + 1, batch, base); }
  }

  /** The two cases where `maxLen` for every request would be too much: all tokens are used. */
  method Distribute(total: nat, batch: nat, maxLen: nat, cp: nat) returns (lens: seq<nat>)
    requires 0 < batch <= total && maxLen * batch > total
    ensures FitsIn(lens, batch, total) && Sum(lens) == total
    ensures Multiple(total, Alignment(cp)) ==> AllMultiples(lens, Alignment(cp))
    ensures cp <= 1 ==> NearlyEqual(lens) && forall k :: 0 <= k < |lens| ==> lens[k] <= maxLen
    ensures Even(lens, total / batch, batch, cp)
  {
    var base, step := total / batch, Alignment(cp);
    BasePositive(total, batch);
    BaseBelow(total, batch, maxLen);
    AlignIs(base, step);
    var aligned := if cp > 1 then Align(base, step) else base;
    assert cp <= 1 ==> aligned == base && step == 1;
    assert aligned == AlignedLength(base, cp);
    assert Multiple(aligned, step) by { if cp <= 1 { assert IsTimes(base, 1, base); } }
    FewRequests(total, batch, base, aligned);
    if aligned == base { FullBatch(total, batch, base); }
    var full, remainder := total / aligned, total % aligned;
    var size := full + (if remainder > 0 then 1 else 0);
    if size <= batch {
      lens := FillUp(total, aligned);
    } else {
      var extra := total - batch * aligned;
      if Multiple(total, step) { MultipleDiff(total, aligned, extra, batch, step); }
      lens := HandOut(aligned, batch, extra, step);
    }
  }

  /** Enough tokens for `batch` requests of `length` make at least that many of it. */
  lemma EnoughWhole(total: nat, batch: nat, length: nat)
    requires length > 0 && length * batch <= total
    ensures total / length >= batch
  {
    BlockBounds(total, length);
    if total / length < batch { Scaled(total / length + 1, batch, length); }
  }

  /** The lengths before a prefix-cache warm-up changes the first one. */
  method Split(total: nat, batch: nat, maxLen: nat, cp: nat) returns (lens: seq<nat>)
    requires 0 < batch <= total && maxLen > 0
    ensures lens != [] && FitsIn(lens[..Min(|lens|, batch)], batch, total) && Sum(lens) == total
    ensures Multiple(total, Alignment(cp)) ==> AllMultiples(lens, Alignment(cp))
    ensures maxLen * batch <= total ==> WholeBut(lens, AlignedLength(maxLen, cp)) && (cp <= 1 ==> |lens| >= batch)
    ensures maxLen * batch <= total && cp <= 1 ==> forall k :: 0 <= k < batch ==> lens[k] == maxLen
    ensures maxLen * batch > total ==> |lens| <= batch && Even(lens, total / batch, batch, cp)
    ensures cp <= 1 ==> forall k :: 0 <= k < |lens| ==> lens[k] <= maxLen
    ensures cp <= 1 && maxLen * batch > total ==> NearlyEqual(lens)
  {
    if maxLen * batch <= total {
      AlignIs(maxLen, Alignment(cp));
      var aligned := AlignedLength(maxLen, cp);
      assert Multiple(aligned, Alignment(cp)) by { if cp <= 1 { assert IsTimes(maxLen, 1, maxLen); } }
      lens := FillUp(total, aligned);
      EnoughWhole(total, batch, maxLen);
      if cp <= 1 && total % maxLen > 0 { assert batch <= |lens| - 1; }
    } else {
      lens := Distribute(total, batch, maxLen, cp);
      assert lens[..|lens|] == lens;
    }
    assert Sum([]) == 0;
    SumPrefix(lens, Min(|lens|, batch));
  }

  /** What the split promises: at most `batch` positive lengths within the tokens. If `maxLen` for every request fits,
      they are just that many requests of `maxLen`, or, under context parallelism, of `maxLen` aligned, but for the
      last; if not, they use up the tokens evenly. */
  ghost predicate Shares(lens: seq<nat>, total: nat, batch: nat, maxLen: nat, cp: nat) {
    && lens != [] && FitsIn(lens, batch, total)
    && (Multiple(total, Alignment(cp)) ==> AllMultiples(lens, Alignment(cp)))
    && (if maxLen * batch <= total then
          if cp <= 1 then lens == Repeat(maxLen, batch)
          else WholeBut(lens, AlignedLength(maxLen, cp)) && (|lens| < batch ==> Sum(lens) == total)
        else
          && Sum(lens) == total && (batch > 0 ==> Even(lens, total / batch, batch, cp))
          && (cp <= 1 ==> NearlyEqual(lens) && forall k :: 0 <= k < |lens| ==> lens[k] <= maxLen))
  }

  lemma SharesFirst(lens: seq<nat>, total: nat, batch: nat, maxLen: nat, cp: nat)
    requires 0 < batch && lens != [] && FitsIn(lens[..Min(|lens|, batch)], batch, total) && Sum(lens) == total
    requires Multiple(total, Alignment(cp)) ==> AllMultiples(lens, Alignment(cp))
    requires maxLen * batch <= total ==> WholeBut(lens, AlignedLength(maxLen, cp)) && (cp <= 1 ==> |lens| >= batch)
    requires maxLen * batch <= total && cp <= 1 ==> forall k :: 0 <= k < batch ==> lens[k] == maxLen
    requires maxLen * batch > total ==> |lens| <= batch && Even(lens, total / batch, batch, cp)
    requires cp <= 1 && maxLen * batch > total ==> NearlyEqual(lens)
    requires cp <= 1 ==> forall k :: 0 <= k < |lens| ==> lens[k] <= maxLen
    ensures Shares(lens[..Min(|lens|, batch)], total, batch, maxLen, cp)
  {
    hide Multiple, Sum, Even, AlignedLength;
    if |lens| <= batch { assert lens[..|lens|] == lens; }
    if maxLen * batch <= total && cp <= 1 { assert lens[..batch] == Repeat(maxLen, batch); }
  }

  /** Request lengths of one data-parallel group. A prefix-cache warm-up changes nothing but the first length: a block
      more, up to `maxLen`. */
  method GetRequestLengthsByDp(maxLen: nat, batch: nat, maxPrefillTokens: nat, cp: nat, blockSize: nat,
                               doPrefixCacheWarmup: bool, doDapWarmup: bool)
    returns (result: seq<nat>, ghost total: nat, ghost plain: seq<nat>)
    requires maxLen > 0 && 0 < batch <= (if doDapWarmup then CeilDiv(maxPrefillTokens, 2) else maxPrefillTokens)
    ensures total == if doDapWarmup then CeilDiv(maxPrefillTokens, 2) else maxPrefillTokens
    ensures Shares(plain, total, batch, maxLen, cp)
    ensures plain != []
      && result == if doPrefixCacheWarmup then plain[0 := Min(plain[0] + blockSize, maxLen)] else plain
    ensures |result| <= batch && (cp <= 1 ==> forall k :: 0 <= k < |result| ==> result[k] <= maxLen)
  {
    var tokens := if doDapWarmup then CeilDiv(maxPrefillTokens, 2) else maxPrefillTokens;
    total := tokens;
    result := Split(tokens, batch, maxLen, cp);
    SharesFirst(result, total, batch, maxLen, cp);
    plain := result[..Min(|result|, batch)];
    hide *;
    if doPrefixCacheWarmup {
      result := result[0 := Min(result[0] + blockSize, maxLen)];
    }
    result := result[..Min(|result|, batch)];
  }
}
