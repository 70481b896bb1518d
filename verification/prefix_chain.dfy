/** The content a cache block stands for, and the rolling hash that names it. */
module PrefixChain {
  import opened Basics

  /** A block's whole history: the chain before it, its own tokens and its extra (LoRA) hash. */
  datatype Chain = Root | Link(before: Chain, tokens: seq<TokenId>, extra: HashValue)

  /** One hashing step: predecessor hash (0 for none), the block's tokens, the extra hash. */
  type Mixer = (HashValue, seq<TokenId>, HashValue) -> HashValue

  /** The assumption under which a hit on the hash alone is a hit on the content: no hash is 0, and
      blocks of one size never collide. */
  ghost predicate CollisionFree(mix: Mixer) {
    && (forall p, t, e :: mix(p, t, e) != INVALID_HASH_VALUE)
    && (forall p, t, e, p', t', e' :: |t| == |t'| && mix(p, t, e) == mix(p', t', e') ==> p == p' && t == t' && e == e')
  }

  /** Hash of a complete chain. */
  function ChainHash(mix: Mixer, c: Chain): HashValue {
    match c
    case Root => INVALID_HASH_VALUE
    case Link(before, tokens, extra) => mix(ChainHash(mix, before), tokens, extra)
  }

  /** Every block of the chain is full and none ends in a placeholder. */
  predicate Ready(blockSize: nat, c: Chain) {
    && c.Link?
    && |c.tokens| == blockSize > 0
    && c.tokens[|c.tokens| - 1] != PLACEHOLDER_TOKEN
    && (c.before.Root? || Ready(blockSize, c.before))
  }

  lemma {:induction false} ChainHashInjective(mix: Mixer, blockSize: nat, a: Chain, b: Chain)
    requires CollisionFree(mix) && Ready(blockSize, a) && Ready(blockSize, b)
    requires ChainHash(mix, a) == ChainHash(mix, b)
    ensures a == b
  {
    if a.before.Link? && b.before.Link? {
      ChainHashInjective(mix, blockSize, a.before, b.before);
    }
  }

  /** The hash of a block, or 0 while the block may not be shared by content. */
  function PrefixHash(mix: Mixer, blockSize: nat, c: Chain): HashValue {
    if Ready(blockSize, c) then ChainHash(mix, c) else INVALID_HASH_VALUE
  }

  function TotalTokens(c: Chain): nat {
    match c
    case Root => 0
    case Link(before, tokens, _) => TotalTokens(before) + |tokens|
  }

  /** Placeholders, if any, form a suffix. */
  predicate Suffixed(t: seq<TokenId>) {
    forall i, j :: 0 <= i < j < |t| && t[i] == PLACEHOLDER_TOKEN ==> t[j] == PLACEHOLDER_TOKEN
  }

  /** The tokens before the trailing placeholders. */
  function Known(t: seq<TokenId>): seq<TokenId> {
    if t != [] && t[|t| - 1] == PLACEHOLDER_TOKEN then Known(t[..|t| - 1]) else t
  }

  /** Whatever the list, its known part ends where only placeholders follow. */
  lemma {:induction false} KnownIsFirst(t: seq<TokenId>)
    ensures |Known(t)| <= |t| && Known(t) == t[..|Known(t)|]
    ensures Known(t) != [] ==> Known(t)[|Known(t)| - 1] != PLACEHOLDER_TOKEN
  {
    if t != [] && t[|t| - 1] == PLACEHOLDER_TOKEN {
      KnownIsFirst(t[..|t| - 1]);
    }
  }

  lemma {:induction false} KnownMeaning(t: seq<TokenId>)
    requires Suffixed(t)
    ensures Known(t) <= t
    ensures PLACEHOLDER_TOKEN !in Known(t)
    ensures |Known(t)| < |t| ==> t[|Known(t)|] == PLACEHOLDER_TOKEN
  {
    if t != [] && t[|t| - 1] == PLACEHOLDER_TOKEN {
      KnownMeaning(t[..|t| - 1]);
    }
  }
}
