/** Identity of one of the four node slots of the board. */
module NodeIds {
  import opened Bits

  datatype NodeId = Node1 | Node2 | Node3 | Node4

  /** 0-based index of the node: Node1 is 0, Node4 is 3. */
  function Index(node: NodeId): (i: nat)
    ensures i < 4
  {
    match node
    case Node1 => 0
    case Node2 => 1
    case Node3 => 2
    case Node4 => 3
  }

  /** One-hot bit field of the node, `1 << (node - 1)`. */
  function ToBitfield(node: NodeId): (bits: u8)
    ensures bits as int == Pow2(Index(node))
  {
    match node
    case Node1 => 1
    case Node2 => 2
    case Node3 => 4
    case Node4 => 8
  }

  /** The bit field is one-hot: exactly the node's own bit is set. */
  lemma BitfieldOneHot(node: NodeId, j: nat)
    requires j < ByteBits
    ensures Bit(ToBitfield(node), j) == if j == Index(node) then 1 else 0
  {
    assert Pow2(1) == 2 && Pow2(2) == 4 && Pow2(3) == 8 && Pow2(4) == 16;
    assert Pow2(5) == 32 && Pow2(6) == 64 && Pow2(7) == 128;
  }

  /** Decoding against a one-hot mask yields the single pair for that node. */
  lemma {:induction false} OneHotUpdates(node: NodeId, states: u8)
    ensures BitIterator(states, ToBitfield(node)) == [Update(Index(node), Bit(states, Index(node)))]
  {
    var bits, i := ToBitfield(node), Index(node);
    forall j | 0 <= j < ByteBits ensures Bit(bits, j) == if j == i then 1 else 0 {
      BitfieldOneHot(node, j);
    }
    SkipClearBits(states, bits, 0, i);
    SkipClearBits(states, bits, i + 1, ByteBits);
  }
}
