/** What the power controller promises about the order and extent of its
    effects, stated over the trace its operations leave behind. */
module Sequencing {
  import opened Bits
  import opened NodeIds
  import Decimal
  import opened Effects
  import opened PowerControl

  /** The node of update `u`, attempted from position `pos`, completes: its
      write and its line set succeed and it has an enable line. */
  predicate Clean(u: Update, pos: nat, faulty: set<nat>) {
    pos !in faulty && u.idx < NodeCount && pos + 2 !in faulty
  }

  /** The first `k` updates of a run starting at `at` all complete. */
  predicate CleanUpTo(us: seq<Update>, at: nat, faulty: set<nat>, k: nat)
    requires k <= |us|
  {
    forall j :: 0 <= j < k ==> Clean(us[j], at + 3 * j, faulty)
  }

  // ---------------------------------------------------------------------
  // Platform attribute paths

  /** Distinct nodes announce through distinct platform attribute files. */
  lemma ModePathInjective(a: nat, b: nat)
    requires ModePath(a) == ModePath(b)
    ensures a == b
  {
    var fa, fb := Decimal.Format(a), Decimal.Format(b);
    var n := |ModePathPrefix|;
    assert |fa| == |fb|;
    assert ModePath(a)[n..n + |fa|] == fa;
    assert ModePath(b)[n..n + |fb|] == fb;
    Decimal.FormatInjective(a, b);
  }

  /** Nodes 1..9 write to `/sys/bus/platform/devices/node<digit>-power/state`. */
  lemma ModePathDigit(n: nat)
    requires n < 10
    ensures ModePath(n) == ModePathPrefix + [Decimal.DigitChar(n)] + ModePathSuffix
  {
  }

  // ---------------------------------------------------------------------
  // The full plan of a call

  /** In the plan, node `k` occupies positions 3k, 3k+1, 3k+2: its platform
      write, then the 100 ms settle delay, then its enable-line set. */
  lemma {:induction false} PlanNodeOrder(us: seq<Update>, k: nat)
    requires k < |us|
    ensures Plan(us)[3 * k] == Write(ModePath(us[k].idx + 1), ModeToken(us[k].state))
    ensures Plan(us)[3 * k + 1] == Sleep(SettleMs)
    ensures Plan(us)[3 * k + 2] == SetLine(us[k].idx, us[k].state)
  {
    if k > 0 {
      PlanNodeOrder(us[1..], k - 1);
      assert Plan(us) == NodeSteps(us[0]) + Plan(us[1..]);
    }
  }

  /** The plan of the first `k` updates is the first `3k` steps of the plan. */
  lemma {:induction false} PlanPrefix(us: seq<Update>, k: nat)
    requires k <= |us|
    ensures Plan(us[..k]) == Plan(us)[..3 * k]
  {
    if k > 0 {
      PlanTakeCons(us, k);
      PlanPrefix(us[1..], k - 1);
    } else {
      assert us[..k] == [];
    }
  }

  /** The plan of a non-empty prefix starts with the first node's steps. */
  lemma PlanTakeCons(us: seq<Update>, k: nat)
    requires 0 < k <= |us|
    ensures Plan(us[..k]) == NodeSteps(us[0]) + Plan(us[1..][..k - 1])
  {
    assert us[..k][0] == us[0] && us[..k][1..] == us[1..][..k - 1];
  }

  // ---------------------------------------------------------------------
  // Runs of the update loop

  /** A clean prefix is a clean first node followed by a clean prefix of the
      rest, three positions later. */
  lemma CleanUpToCons(us: seq<Update>, at: nat, faulty: set<nat>, k: nat)
    requires 0 < k <= |us|
    ensures CleanUpTo(us, at, faulty, k) <==>
      Clean(us[0], at, faulty) && CleanUpTo(us[1..], at + 3, faulty, k - 1)
  {
    assert forall j :: 0 <= j < k - 1 ==> us[1..][j] == us[j + 1] && at + 3 + 3 * j == at + 3 * (j + 1);
  }

  /** A call completes exactly when every decoded node completes, and then
      it has produced the whole plan: one write, one 100 ms sleep and one
      line set per node, and nothing else. */
  lemma {:induction false} RunDoneIffClean(us: seq<Update>, at: nat, faulty: set<nat>)
    ensures RunUpdates(us, at, faulty).status == Done <==> CleanUpTo(us, at, faulty, |us|)
    ensures RunUpdates(us, at, faulty).status == Done ==> RunUpdates(us, at, faulty).effects == Plan(us)
    decreases |us|
  {
    if us != [] {
      RunHead(us, at, faulty);
      RunDoneIffClean(us[1..], at + 3, faulty);
      CleanUpToCons(us, at, faulty, |us|);
    }
  }

  /** A call whose nodes before `k` complete and whose node `k` does not is
      the plan of the earlier nodes followed by node `k`'s cut-short run. */
  lemma {:induction false} RunUpToFault(us: seq<Update>, at: nat, faulty: set<nat>, k: nat)
    requires k < |us|
    requires CleanUpTo(us, at, faulty, k)
    requires !Clean(us[k], at + 3 * k, faulty)
    ensures RunUpdates(us, at, faulty) == Then(Plan(us[..k]), NodeRun(us[k], at + 3 * k, faulty))
    decreases k
  {
    RunCons(us, at, faulty);
    if k == 0 {
      assert us[..k] == [];
      assert [] + NodeRun(us[0], at, faulty).effects == NodeRun(us[0], at, faulty).effects;
    } else {
      CleanUpToCons(us, at, faulty, k);
      assert us[1..][k - 1] == us[k];
      RunUpToFault(us[1..], at + 3, faulty, k - 1);
      PlanTakeCons(us, k);
      ThenThen(NodeSteps(us[0]), Plan(us[1..][..k - 1]), NodeRun(us[k], at + 3 * k, faulty));
    }
  }

  /** Abort at the first failure, without rollback: if nodes before `k`
      complete and node `k` does not, the trace holds the full steps of the
      earlier nodes, then for node `k` only its write when that write failed
      (no sleep, no line set), its write and sleep when it has no enable line,
      or all three steps when its line set failed; no later node is touched. */
  lemma AbortAtFirstFault(us: seq<Update>, at: nat, faulty: set<nat>, k: nat)
    requires k < |us|
    requires CleanUpTo(us, at, faulty, k)
    requires !Clean(us[k], at + 3 * k, faulty)
    ensures var run, u, pos := RunUpdates(us, at, faulty), us[k], at + 3 * k;
      var w := Write(ModePath(u.idx + 1), ModeToken(u.state));
      && (pos in faulty ==> run == Run(Plan(us[..k]) + [w], Failed(Io(None))))
      && (pos !in faulty && u.idx >= NodeCount ==>
            run == Run(Plan(us[..k]) + [w, Sleep(SettleMs)], Panicked(u.idx)))
      && (pos !in faulty && u.idx < NodeCount ==> run == Run(Plan(us[..k]) + NodeSteps(u), Failed(Io(None))))
  {
    RunUpToFault(us, at, faulty, k);
  }

  /** Whatever happens, a call's effects are a prefix of its plan. */
  lemma {:induction false} RunIsPlanPrefix(us: seq<Update>, at: nat, faulty: set<nat>)
    ensures |RunUpdates(us, at, faulty).effects| <= |Plan(us)|
    ensures RunUpdates(us, at, faulty).effects == Plan(us)[..|RunUpdates(us, at, faulty).effects|]
    decreases |us|
  {
    if us != [] {
      RunHead(us, at, faulty);
      RunIsPlanPrefix(us[1..], at + 3, faulty);
      assert Plan(us) == NodeSteps(us[0]) + Plan(us[1..]);
    }
  }

  /** A call stops with a panic only on an index with no enable line. */
  lemma {:induction false} RunPanicsOnlyOutOfRange(us: seq<Update>, at: nat, faulty: set<nat>)
    ensures RunUpdates(us, at, faulty).status.Panicked? ==> RunUpdates(us, at, faulty).status.index >= NodeCount
    ensures (forall k :: 0 <= k < |us| ==> us[k].idx < NodeCount) ==> !RunUpdates(us, at, faulty).status.Panicked?
    decreases |us|
  {
    if us != [] {
      RunHead(us, at, faulty);
      RunPanicsOnlyOutOfRange(us[1..], at + 3, faulty);
      assert forall k :: 0 <= k < |us| - 1 ==> us[1..][k] == us[k + 1];
    }
  }

  /** With no failing write or line set, a call never returns an error. */
  lemma {:induction false} NoFaultNeverFails(us: seq<Update>, at: nat)
    ensures !RunUpdates(us, at, {}).status.Failed?
    decreases |us|
  {
    if us != [] {
      RunHead(us, at, {});
      NoFaultNeverFails(us[1..], at + 3);
    }
  }

  // ---------------------------------------------------------------------
  // set_power_node over the decoder

  /** A node mask within the four node bits never indexes past the enable
      lines. */
  lemma LowMaskNeverPanics(nodeStates: u8, nodeMask: u8, at: nat, faulty: set<nat>)
    requires nodeMask < 16
    ensures !RunUpdates(BitIterator(nodeStates, nodeMask), at, faulty).status.Panicked?
  {
    LowMaskIndices(nodeStates, nodeMask);
    RunPanicsOnlyOutOfRange(BitIterator(nodeStates, nodeMask), at, faulty);
  }

  /** A mask bit at 4..7 is not ignored: with nothing failing, the call
      writes and waits for that index and then panics on the enable array. */
  lemma HighMaskBitPanics(nodeStates: u8, nodeMask: u8, at: nat, j: nat)
    requires 4 <= j < ByteBits && Bit(nodeMask, j) == 1
    ensures RunUpdates(BitIterator(nodeStates, nodeMask), at, {}).status.Panicked?
    ensures RunUpdates(BitIterator(nodeStates, nodeMask), at, {}).status.index >= NodeCount
  {
    var us := BitIterator(nodeStates, nodeMask);
    BitIteratorDecodes(nodeStates, nodeMask);
    var k :| 0 <= k < |us| && us[k] == Update(j, Bit(nodeStates, j));
    assert !Clean(us[k], at + 3 * k, {});
    RunDoneIffClean(us, at, {});
    NoFaultNeverFails(us, at);
    RunPanicsOnlyOutOfRange(us, at, {});
  }

  // ---------------------------------------------------------------------
  // Enable-line levels

  function Or(a: Option<nat>, b: Option<nat>): Option<nat> {
    if a.Some? then a else b
  }

  /** Level of the last successful set of line `idx` in `trace`, whose first
      event is at position `base`; None when no set of that line succeeded. */
  function LastLevel(trace: seq<Effect>, base: nat, faulty: set<nat>, idx: nat): Option<nat>
    decreases |trace|
  {
    if trace == [] then None
    else Or(LastLevel(trace[1..], base + 1, faulty, idx),
            if trace[0].SetLine? && trace[0].idx == idx && base !in faulty then Some(trace[0].level) else None)
  }

  /** Level of enable line `idx` after a whole trace. */
  function LineLevel(trace: seq<Effect>, faulty: set<nat>, idx: nat): Option<nat> {
    LastLevel(trace, 0, faulty, idx)
  }

  /** State of node `idx` last requested by a sequence of updates. */
  function LastRequested(us: seq<Update>, idx: nat): Option<nat>
    decreases |us|
  {
    if us == [] then None
    else Or(LastRequested(us[1..], idx), if us[0].idx == idx then Some(us[0].state) else None)
  }

  /** A later successful set of a line overrides an earlier one. */
  lemma {:induction false} LastLevelAppend(a: seq<Effect>, b: seq<Effect>, base: nat, faulty: set<nat>, idx: nat)
    ensures LastLevel(a + b, base, faulty, idx) == Or(LastLevel(b, base + |a|, faulty, idx), LastLevel(a, base, faulty, idx))
    decreases |a|
  {
    if a != [] {
      assert (a + b)[0] == a[0] && (a + b)[1..] == a[1..] + b;
      LastLevelAppend(a[1..], b, base + 1, faulty, idx);
    } else {
      assert a + b == b;
    }
  }

  /** When every line set of the plan succeeds, each line ends at the state
      last requested for it. */
  lemma {:induction false} PlanLevel(us: seq<Update>, base: nat, faulty: set<nat>, idx: nat)
    requires CleanUpTo(us, base, faulty, |us|)
    ensures LastLevel(Plan(us), base, faulty, idx) == LastRequested(us, idx)
    decreases |us|
  {
    if us != [] {
      CleanUpToCons(us, base, faulty, |us|);
      PlanLevel(us[1..], base + 3, faulty, idx);
      LastLevelAppend(NodeSteps(us[0]), Plan(us[1..]), base, faulty, idx);
      var u, s := us[0], NodeSteps(us[0]);
      var own := if u.idx == idx then Some(u.state) else None;
      assert s[2..][1..] == [];
      assert LastLevel(s[2..], base + 2, faulty, idx) == own;
      assert s[1..][1..] == s[2..];
      assert LastLevel(s[1..], base + 1, faulty, idx) == own;
      assert LastLevel(s, base, faulty, idx) == own;
    }
  }

  /** If every update for `idx` requests `v`, the last request for `idx` is
      `v` when `Update(idx, v)` is among them and nothing otherwise. */
  lemma {:induction false} LastRequestedUniform(us: seq<Update>, idx: nat, v: nat)
    requires forall k :: 0 <= k < |us| && us[k].idx == idx ==> us[k].state == v
    ensures LastRequested(us, idx) == if Update(idx, v) in us then Some(v) else None
    decreases |us|
  {
    if us != [] {
      assert forall k :: 0 <= k < |us| - 1 ==> us[1..][k] == us[k + 1];
      LastRequestedUniform(us[1..], idx, v);
      assert Update(idx, v) in us <==> us[0] == Update(idx, v) || Update(idx, v) in us[1..];
    }
  }

  /** The decoder requests the state bit of exactly the masked nodes. */
  lemma DecodedRequest(nodeStates: u8, nodeMask: u8, idx: nat)
    ensures LastRequested(BitIterator(nodeStates, nodeMask), idx) ==
      if idx < ByteBits && Bit(nodeMask, idx) == 1 then Some(Bit(nodeStates, idx)) else None
  {
    var us := BitIterator(nodeStates, nodeMask);
    BitIteratorDecodes(nodeStates, nodeMask);
    LastRequestedUniform(us, idx, Bit(nodeStates, idx));
  }

  /** After a completed run, each line is at the state last requested for
      it by the run, or where it was before when the run did not touch it. */
  lemma RunLevel(t: seq<Effect>, us: seq<Update>, faulty: set<nat>, idx: nat)
    requires RunUpdates(us, |t|, faulty).status == Done
    ensures LineLevel(t + RunUpdates(us, |t|, faulty).effects, faulty, idx) ==
      Or(LastRequested(us, idx), LineLevel(t, faulty, idx))
  {
    RunDoneIffClean(us, |t|, faulty);
    PlanLevel(us, |t|, faulty, idx);
    LastLevelAppend(t, Plan(us), 0, faulty, idx);
  }

  /** After a successful `set_power_node(states, mask)`, every masked node's
      line is at its requested state and every other line is as before. */
  lemma SetPowerNodeLevel(t: seq<Effect>, nodeStates: u8, nodeMask: u8, faulty: set<nat>, idx: nat)
    requires RunUpdates(BitIterator(nodeStates, nodeMask), |t|, faulty).status == Done
    ensures LineLevel(t + RunUpdates(BitIterator(nodeStates, nodeMask), |t|, faulty).effects, faulty, idx) ==
      if idx < ByteBits && Bit(nodeMask, idx) == 1 then Some(Bit(nodeStates, idx)) else LineLevel(t, faulty, idx)
  {
    RunLevel(t, BitIterator(nodeStates, nodeMask), faulty, idx);
    DecodedRequest(nodeStates, nodeMask, idx);
  }

  /** Running the same updates twice, both runs completing, repeats the same
      writes, sleeps and line sets and leaves every line where the first run
      left it. */
  lemma RunIdempotent(t: seq<Effect>, us: seq<Update>, faulty: set<nat>, idx: nat)
    requires RunUpdates(us, |t|, faulty).status == Done
    requires RunUpdates(us, |t| + |RunUpdates(us, |t|, faulty).effects|, faulty).status == Done
    ensures var first := RunUpdates(us, |t|, faulty).effects;
      var second := RunUpdates(us, |t| + |first|, faulty).effects;
      second == first && LineLevel(t + first + second, faulty, idx) == LineLevel(t + first, faulty, idx)
  {
    var first := RunUpdates(us, |t|, faulty).effects;
    RunDoneIffClean(us, |t|, faulty);
    RunDoneIffClean(us, |t| + |first|, faulty);
    RunLevel(t, us, faulty, idx);
    RunLevel(t + first, us, faulty, idx);
  }

  /** `set_power_node` twice with the same arguments is idempotent in its
      observable effect. */
  lemma SetPowerNodeIdempotent(t: seq<Effect>, nodeStates: u8, nodeMask: u8, faulty: set<nat>, idx: nat)
    requires RunUpdates(BitIterator(nodeStates, nodeMask), |t|, faulty).status == Done
    requires RunUpdates(BitIterator(nodeStates, nodeMask),
                        |t| + |RunUpdates(BitIterator(nodeStates, nodeMask), |t|, faulty).effects|, faulty).status == Done
    ensures var first := RunUpdates(BitIterator(nodeStates, nodeMask), |t|, faulty).effects;
      var second := RunUpdates(BitIterator(nodeStates, nodeMask), |t| + |first|, faulty).effects;
      second == first && LineLevel(t + first + second, faulty, idx) == LineLevel(t + first, faulty, idx)
  {
    RunIdempotent(t, BitIterator(nodeStates, nodeMask), faulty, idx);
  }

  /** States 0b0101 under mask 0b1111 decode to nodes 0..3 in order with
      states 1, 0, 1, 0. */
  lemma ExampleDecodes()
    ensures BitIterator(5, 15) == [Update(0, 1), Update(1, 0), Update(2, 1), Update(3, 0)]
  {
    assert Bit(5, 0) == 1 && Bit(5, 1) == 0 && Bit(5, 2) == 1 && Bit(5, 3) == 0;
    assert Bit(15, 0) == 1 && Bit(15, 1) == 1 && Bit(15, 2) == 1 && Bit(15, 3) == 1;
    assert forall j :: 4 <= j < ByteBits ==> Bit(15, j) == 0 by {
      forall j | 4 <= j < ByteBits { HighBitClear(15, j); }
    }
    SkipClearBits(5, 15, 4, ByteBits);
  }

  /** The worked example: states 0b0101 under mask 0b1111 with nothing
      failing handles nodes 1, 2, 3, 4 in that order, turning 1 and 3 on and
      2 and 4 off, each line set preceded by its write and a 100 ms sleep. */
  lemma SetPowerNodeExample(at: nat)
    ensures RunUpdates(BitIterator(5, 15), at, {}) == Run(
      [ Write(ModePath(1), "enabled"), Sleep(100), SetLine(0, 1)
      , Write(ModePath(2), "disabled"), Sleep(100), SetLine(1, 0)
      , Write(ModePath(3), "enabled"), Sleep(100), SetLine(2, 1)
      , Write(ModePath(4), "disabled"), Sleep(100), SetLine(3, 0)
      ], Done)
  {
    var us := [Update(0, 1), Update(1, 0), Update(2, 1), Update(3, 0)];
    ExampleDecodes();
    assert CleanUpTo(us, at, {}, |us|);
    RunDoneIffClean(us, at, {});
    assert us[1..][1..][1..][1..] == [];
    assert Plan(us) == NodeSteps(us[0]) + NodeSteps(us[1]) + NodeSteps(us[2]) + NodeSteps(us[3]);
  }

  // ---------------------------------------------------------------------
  // reset_node

  /** A reset is the off update of the node's single decoded bit and, once
      that completes, a 1 s wait and the node's on update. */
  lemma ResetRunNodes(node: NodeId, at: nat, faulty: set<nat>)
    ensures var i := Index(node);
      var off := NodeRun(Update(i, 0), at, faulty);
      ResetRun(node, at, faulty) ==
        if off.status.Done? then Then(off.effects + [Sleep(ResetMs)], NodeRun(Update(i, 1), at + 4, faulty))
        else off
  {
    var i, bits := Index(node), ToBitfield(node);
    OneHotUpdates(node, 0);
    OneHotUpdates(node, bits);
    BitfieldOneHot(node, i);
    assert Bit(0, i) == 0;
    RunCons([Update(i, 0)], at, faulty);
    RunCons([Update(i, 1)], at + 4, faulty);
    assert [Update(i, 0)][1..] == [] && [Update(i, 1)][1..] == [];
  }

  /** The seven steps of a reset of the node with index `i`: write
      "disabled", 100 ms, line low, 1 s, write "enabled", 100 ms, line high. */
  function ResetScript(i: nat): seq<Effect> {
    [Write(ModePath(i + 1), "disabled"), Sleep(SettleMs), SetLine(i, 0), Sleep(ResetMs),
     Write(ModePath(i + 1), "enabled"), Sleep(SettleMs), SetLine(i, 1)]
  }

  /** A failed off phase ends the reset at once: after a failed write only
      that write, after a failed line set the three off steps; neither the
      1 s wait nor any on step follows. */
  lemma ResetOffFails(node: NodeId, at: nat, faulty: set<nat>)
    ensures var run, script := ResetRun(node, at, faulty), ResetScript(Index(node));
      && (at in faulty ==> run == Run(script[..1], Failed(Io(None))))
      && (at !in faulty && at + 2 in faulty ==> run == Run(script[..3], Failed(Io(None))))
  {
    ResetRunNodes(node, at, faulty);
  }

  /** After a completed off phase the reset waits 1 s and runs the on phase,
      stopping after a failed on write or failed line set, and otherwise
      completing all seven steps. It never panics. */
  lemma ResetOnPhase(node: NodeId, at: nat, faulty: set<nat>)
    requires at !in faulty && at + 2 !in faulty
    ensures var run, script := ResetRun(node, at, faulty), ResetScript(Index(node));
      && (at + 4 in faulty ==> run == Run(script[..5], Failed(Io(None))))
      && (at + 4 !in faulty && at + 6 in faulty ==> run == Run(script, Failed(Io(None))))
      && (at + 4 !in faulty && at + 6 !in faulty ==> run == Run(script, Done))
  {
    var i := Index(node);
    var script := ResetScript(i);
    ResetRunNodes(node, at, faulty);
    assert NodeRun(Update(i, 0), at, faulty).effects + [Sleep(ResetMs)] == script[..4];
    var on := NodeRun(Update(i, 1), at + 4, faulty);
    if at + 4 in faulty {
      assert on.effects == [script[4]];
      assert script[..4] + [script[4]] == script[..5];
    } else {
      assert on.effects == script[4..];
      assert script[..4] + script[4..] == script;
    }
  }
}
