/**
 The block loop of `scripts/capture-efficiency-bench/generate_transport.py`.
 `shake(index, n)` stands for `n` bytes of the extendable-output function on the
 seed of block `index`; all that is used of it is that it yields `n` bytes and
 that a shorter output is a prefix of a longer one (FIPS 202, appendix A.2).
 */
module TransportBody {
  type Byte = bv8

  const BLOCK := 65536

  type Shake = (nat, nat) -> seq<Byte>

  ghost predicate Extendable(shake: Shake) {
    forall i: nat, m: nat, n: nat :: m <= n ==> |shake(i, n)| == n && shake(i, m) == shake(i, n)[..m]
  }

  function Min(a: nat, b: nat): nat { if a <= b then a else b }

  /** The endless stream of full blocks, up to block `blocks`. */
  ghost function Blocks(shake: Shake, blocks: nat): seq<Byte> {
    if blocks == 0 then [] else Blocks(shake, blocks - 1) + shake(blocks - 1, BLOCK)
  }

  lemma {:induction false} BlocksLength(shake: Shake, blocks: nat)
    requires Extendable(shake)
    ensures |Blocks(shake, blocks)| == blocks * BLOCK
  {
    if blocks > 0 {
      BlocksLength(shake, blocks - 1);
      assert |shake(blocks - 1, BLOCK)| == BLOCK by { assert shake(blocks - 1, BLOCK) == shake(blocks - 1, BLOCK)[..BLOCK]; }
    }
  }

  lemma {:induction false} BlocksPrefix(shake: Shake, a: nat, b: nat)
    requires Extendable(shake) && a <= b
    ensures Blocks(shake, a) <= Blocks(shake, b)
  {
    if a < b { BlocksPrefix(shake, a, b - 1); }
  }

  function BlocksFor(bytes: nat): nat { (bytes + BLOCK - 1) / BLOCK }

  /** The body of a given size: that many bytes from the front of the stream. */
  ghost function Body(shake: Shake, bytes: nat): seq<Byte>
    requires Extendable(shake)
  {
    BlocksLength(shake, BlocksFor(bytes));
    Blocks(shake, BlocksFor(bytes))[..bytes]
  }

  method Generate(shake: Shake, bytes: nat) returns (output: seq<Byte>, written: nat)
    requires Extendable(shake)
    ensures output == Body(shake, bytes) && written == |output| == bytes
  {
    output, written := [], 0;
    ghost var k: nat := 0;
    while written < bytes
      invariant written == |output| == Min(k * BLOCK, bytes)
      invariant k <= BlocksFor(bytes)
      invariant output == (BlocksLength(shake, k); Blocks(shake, k)[..written])
    {
      assert written == k * BLOCK && written / BLOCK == k;
      var block := shake(written / BLOCK, Min(BLOCK, bytes - written));
      BlocksLength(shake, k);
      BlocksLength(shake, k + 1);
      assert block == shake(k, BLOCK)[..Min(BLOCK, bytes - written)];
      assert Blocks(shake, k)[..written] == Blocks(shake, k);
      output := output + block;
      written := written + |block|;
      k := k + 1;
      assert output == Blocks(shake, k)[..written];
    }
    BlocksLength(shake, k);
    BlocksLength(shake, BlocksFor(bytes));
    BlocksPrefix(shake, k, BlocksFor(bytes));
  }

  /** A smaller body is the beginning of any larger one. */
  lemma BodyPrefix(shake: Shake, m: nat, n: nat)
    requires Extendable(shake) && m <= n
    ensures |Body(shake, m)| == m && Body(shake, m) <= Body(shake, n)
  {
    BlocksLength(shake, BlocksFor(m));
    BlocksLength(shake, BlocksFor(n));
    assert BlocksFor(m) <= BlocksFor(n);
    BlocksPrefix(shake, BlocksFor(m), BlocksFor(n));
  }

  /** Every byte comes from the block its position falls into. */
  lemma {:induction false} ByteFromItsBlock(shake: Shake, blocks: nat, i: nat)
    requires Extendable(shake) && i < blocks * BLOCK
    ensures |Blocks(shake, blocks)| == blocks * BLOCK && |shake(i / BLOCK, BLOCK)| == BLOCK
    ensures Blocks(shake, blocks)[i] == shake(i / BLOCK, BLOCK)[i % BLOCK]
  {
    BlocksLength(shake, blocks);
    BlocksLength(shake, blocks - 1);
    assert shake(i / BLOCK, BLOCK) == shake(i / BLOCK, BLOCK)[..BLOCK];
    if i < (blocks - 1) * BLOCK {
      ByteFromItsBlock(shake, blocks - 1, i);
    } else {
      assert i / BLOCK == blocks - 1;
    }
  }

  lemma BodyBytes(shake: Shake, bytes: nat, i: nat)
    requires Extendable(shake) && i < bytes
    ensures |Body(shake, bytes)| == bytes && |shake(i / 65536, 65536)| == 65536
    ensures Body(shake, bytes)[i] == shake(i / 65536, 65536)[i % 65536]
  {
    BlocksLength(shake, BlocksFor(bytes));
    ByteFromItsBlock(shake, BlocksFor(bytes), i);
  }
}
