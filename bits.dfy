/** The bit decoder the power controller consumes: a node-state byte and a
    node-mask byte become the ascending list of (index, desired state) pairs,
    one for each bit set in the mask. */
module Bits {

  /** An unsigned 8-bit value (Rust `u8`). */
  newtype u8 = x: int | 0 <= x < 256

  /** Number of bits in a `u8`. */
  const ByteBits: nat := 8

  function Pow2(i: nat): (p: nat)
    ensures p >= 1
  {
    if i == 0 then 1 else 2 * Pow2(i - 1)
  }

  /** Bit `i` of `x`, as 0 or 1. */
  function Bit(x: u8, i: nat): (b: nat)
    ensures b <= 1
  {
    (x as int / Pow2(i)) % 2
  }

  /** One decoded request: node index (0-based) and the state bit for it. */
  datatype Update = Update(idx: nat, state: nat)

  /** Updates for the mask bits `i .. 7`, in ascending order. */
  function UpdatesFrom(states: u8, mask: u8, i: nat): seq<Update>
    requires i <= ByteBits
    decreases ByteBits - i
  {
    if i == ByteBits then []
    else if Bit(mask, i) == 1 then [Update(i, Bit(states, i))] + UpdatesFrom(states, mask, i + 1)
    else UpdatesFrom(states, mask, i + 1)
  }

  /** The decoder itself (`bit_iterator`). */
  function BitIterator(states: u8, mask: u8): seq<Update> {
    UpdatesFrom(states, mask, 0)
  }

  /** Every pair names a set bit of `mask` at or above `from` and carries
      the matching bit of `states`. */
  predicate YieldsMaskBits(r: seq<Update>, states: u8, mask: u8, from: nat) {
    forall k :: 0 <= k < |r| ==>
      from <= r[k].idx < ByteBits && Bit(mask, r[k].idx) == 1 && r[k].state == Bit(states, r[k].idx)
  }

  predicate StrictlyAscending(r: seq<Update>) {
    forall k, l :: 0 <= k < l < |r| ==> r[k].idx < r[l].idx
  }

  /** Every set bit of `mask` at or above `from` is yielded. */
  predicate YieldsEveryMaskBit(r: seq<Update>, states: u8, mask: u8, from: nat) {
    forall j :: from <= j < ByteBits && Bit(mask, j) == 1 ==> Update(j, Bit(states, j)) in r
  }

  predicate Decodes(r: seq<Update>, states: u8, mask: u8, from: nat) {
    YieldsMaskBits(r, states, mask, from) && StrictlyAscending(r) && YieldsEveryMaskBit(r, states, mask, from)
  }

  lemma {:induction false} UpdatesFromYieldsMaskBits(states: u8, mask: u8, i: nat)
    requires i <= ByteBits
    ensures YieldsMaskBits(UpdatesFrom(states, mask, i), states, mask, i)
    decreases ByteBits - i
  {
    if i < ByteBits {
      var rest := UpdatesFrom(states, mask, i + 1);
      UpdatesFromYieldsMaskBits(states, mask, i + 1);
      if Bit(mask, i) == 1 {
        var r := [Update(i, Bit(states, i))] + rest;
        assert forall k :: 1 <= k < |r| ==> r[k] == rest[k - 1];
      }
    }
  }

  lemma {:induction false} UpdatesFromAscending(states: u8, mask: u8, i: nat)
    requires i <= ByteBits
    ensures StrictlyAscending(UpdatesFrom(states, mask, i))
    decreases ByteBits - i
  {
    if i < ByteBits {
      var rest := UpdatesFrom(states, mask, i + 1);
      UpdatesFromAscending(states, mask, i + 1);
      if Bit(mask, i) == 1 {
        UpdatesFromYieldsMaskBits(states, mask, i + 1);
        var r := [Update(i, Bit(states, i))] + rest;
        assert forall k :: 1 <= k < |r| ==> r[k] == rest[k - 1];
      }
    }
  }

  lemma {:induction false} UpdatesFromYieldsEveryMaskBit(states: u8, mask: u8, i: nat)
    requires i <= ByteBits
    ensures YieldsEveryMaskBit(UpdatesFrom(states, mask, i), states, mask, i)
    decreases ByteBits - i
  {
    if i < ByteBits {
      UpdatesFromYieldsEveryMaskBit(states, mask, i + 1);
    }
  }

  lemma UpdatesFromDecodes(states: u8, mask: u8, i: nat)
    requires i <= ByteBits
    ensures Decodes(UpdatesFrom(states, mask, i), states, mask, i)
  {
    UpdatesFromYieldsMaskBits(states, mask, i);
    UpdatesFromAscending(states, mask, i);
    UpdatesFromYieldsEveryMaskBit(states, mask, i);
  }

  /** The decoder meets its contract, with the index range of a byte. */
  lemma BitIteratorDecodes(states: u8, mask: u8)
    ensures Decodes(BitIterator(states, mask), states, mask, 0)
  {
    UpdatesFromDecodes(states, mask, 0);
  }

  /** A mask below 16 (only the four node bits) yields only indices 0..3. */
  lemma {:induction false} LowMaskIndices(states: u8, mask: u8)
    requires mask < 16
    ensures forall k :: 0 <= k < |BitIterator(states, mask)| ==> BitIterator(states, mask)[k].idx < 4
  {
    var r := BitIterator(states, mask);
    BitIteratorDecodes(states, mask);
    forall k | 0 <= k < |r| ensures r[k].idx < 4 {
      var j := r[k].idx;
      if j >= 4 {
        HighBitClear(mask, j);
      }
    }
  }

  /** Bits 4..7 of a value below 16 are clear. */
  lemma HighBitClear(x: u8, j: nat)
    requires x < 16 && 4 <= j
    ensures Bit(x, j) == 0
  {
    Pow2AtLeast16(j);
  }

  lemma {:induction false} Pow2AtLeast16(j: nat)
    requires 4 <= j
    ensures Pow2(j) >= 16
  {
    if j > 4 { Pow2AtLeast16(j - 1); }
  }

  /** Decoding from bit `j` skips straight to bit `i` when the mask bits in
      between are clear. */
  lemma {:induction false} SkipClearBits(states: u8, mask: u8, j: nat, i: nat)
    requires j <= i <= ByteBits
    requires forall m :: j <= m < i ==> Bit(mask, m) == 0
    ensures UpdatesFrom(states, mask, j) == UpdatesFrom(states, mask, i)
    decreases i - j
  {
    if j < i {
      SkipClearBits(states, mask, j + 1, i);
    }
  }
}
