/** The power controller: it owns the four node enable lines and the two
    indicator-light paths, and sequences node power changes as
    "announce to the platform driver, wait, toggle the enable line". */
module PowerControl {
  import opened Bits
  import opened NodeIds
  import Decimal
  import opened Effects

  const SysLedFile: string := "/sys/class/leds/fp::power/brightness"
  const SysLedFile205: string := "/sys/class/leds/fp:sys/brightness"
  const StatusLedFile: string := "/sys/class/leds/fp::status/brightness"
  const StatusLedFile205: string := "/sys/class/leds/fp:reset/brightness"

  /** Names of the enable lines of nodes 1..4 in the chip's line table. */
  const PortNames: seq<string> := ["node1-en", "node2-en", "node3-en", "node4-en"]
  /** Error messages for a missing enable line, in the same order. */
  const MissingLineMessages: seq<string> :=
    ["cannot find PORT1_EN", "cannot find PORT2_EN", "cannot find PORT3_EN", "cannot find PORT4_EN"]

  /** Number of enable lines the controller owns. */
  const NodeCount: nat := 4
  /** Settle delay between the platform write and the line set. */
  const SettleMs: nat := 100
  /** Pause between the off and on phases of a reset. */
  const ResetMs: nat := 1000

  const ModePathPrefix: string := "/sys/bus/platform/devices/node"
  const ModePathSuffix: string := "-power/state"

  /** The GPIO chip device for the board variant. */
  function ChipPath(isLatchingSystem: bool): (path: string)
    ensures path == "/dev/gpiochip1" <==> isLatchingSystem
    ensures path == "/dev/gpiochip2" <==> !isLatchingSystem
  {
    if isLatchingSystem then "/dev/gpiochip1" else "/dev/gpiochip2"
  }

  /** Token announced to the platform driver for a node state. */
  function ModeToken(nodeState: nat): string {
    if nodeState > 0 then "enabled" else "disabled"
  }

  /** A node is announced "enabled" exactly when its state is non-zero and
      "disabled" exactly when it is zero. */
  lemma ModeTokenMeaning(nodeState: nat)
    ensures ModeToken(nodeState) == "enabled" <==> nodeState > 0
    ensures ModeToken(nodeState) == "disabled" <==> nodeState == 0
  {
    assert "enabled" != "disabled" by { assert |"enabled"| != |"disabled"|; }
  }

  /** Platform power-state attribute of node `nodeId` (1-based). */
  function ModePath(nodeId: nat): string {
    ModePathPrefix + Decimal.Format(nodeId) + ModePathSuffix
  }

  /** Token written to an indicator-light brightness file. */
  function LedToken(on: bool): (token: string)
    ensures token == "1" <==> on
    ensures token == "0" <==> !on
  {
    if on then "1" else "0"
  }

  /** Announces `nodeState` for node `nodeId` to the platform driver. */
  method SetMode(kernel: Kernel, nodeId: nat, nodeState: nat) returns (ok: bool)
    modifies kernel
    ensures kernel.trace == old(kernel.trace) + [Write(ModePath(nodeId), ModeToken(nodeState))]
    ensures ok == (|old(kernel.trace)| !in kernel.faulty)
  {
    var nodeValue := if nodeState > 0 then "enabled" else "disabled";
    var sysPath := ModePathPrefix + Decimal.Format(nodeId) + ModePathSuffix;
    ok := kernel.WriteFile(sysPath, nodeValue);
  }

  /** Keeps `sysfs` when that file exists, otherwise takes `fallback`. */
  method FallbackIfNotExist(sysfs: string, fallback: string, files: set<string>) returns (path: string)
    ensures path == sysfs || path == fallback
    ensures sysfs in files ==> path == sysfs
    ensures sysfs !in files ==> path == fallback
  {
    path := sysfs;
    if path !in files {
      path := fallback;
    }
  }

  /** What construction sees of the running system: the GPIO chips that open,
      each with its table of line names to line offsets, and the files that
      exist. */
  datatype Devices = Devices(chips: map<string, map<string, nat>>, files: set<string>)

  /** Effects and outcome of a (partial) run. */
  datatype Run = Run(effects: seq<Effect>, status: Status)

  /** Prepends effects that already happened to a run. */
  function Then(done: seq<Effect>, run: Run): Run {
    Run(done + run.effects, run.status)
  }

  /** The three steps taken for one decoded update. */
  function NodeSteps(u: Update): seq<Effect> {
    [Write(ModePath(u.idx + 1), ModeToken(u.state)), Sleep(SettleMs), SetLine(u.idx, u.state)]
  }

  /** Every step of a run over `us` in which nothing fails. */
  function Plan(us: seq<Update>): (p: seq<Effect>)
    ensures |p| == 3 * |us|
  {
    if us == [] then [] else NodeSteps(us[0]) + Plan(us[1..])
  }

  /** The effects of handling one update whose first effect is attempted at
      trace position `at`: the mode write, the settling delay and the line
      level, cut short at the first failure or at an index with no line. */
  function NodeRun(u: Update, at: nat, faulty: set<nat>): (run: Run)
    ensures run.effects <= NodeSteps(u)
    ensures run.status.Done? <==> at !in faulty && u.idx < NodeCount && at + 2 !in faulty
  {
    var steps := NodeSteps(u);
    if at in faulty then Run(steps[..1], Failed(Io(None)))
    else if u.idx >= NodeCount then Run(steps[..2], Panicked(u.idx))
    else if at + 2 in faulty then Run(steps, Failed(Io(None)))
    else Run(steps, Done)
  }

  /** A run of the update loop over `us` whose first effect is attempted at
      trace position `at`, against the failing positions `faulty`. */
  function RunUpdates(us: seq<Update>, at: nat, faulty: set<nat>): Run
    decreases |us|
  {
    if us == [] then Run([], Done)
    else
      var steps := NodeSteps(us[0]);
      if at in faulty then Run(steps[..1], Failed(Io(None)))
      else if us[0].idx >= NodeCount then Run(steps[..2], Panicked(us[0].idx))
      else if at + 2 in faulty then Run(steps, Failed(Io(None)))
      else Then(steps, RunUpdates(us[1..], at + 3, faulty))
  }

  /** The update loop is the first node's handling followed, when that
      completes, by the loop over the remaining updates. */
  lemma RunCons(us: seq<Update>, at: nat, faulty: set<nat>)
    requires us != []
    ensures var n := NodeRun(us[0], at, faulty);
      RunUpdates(us, at, faulty) ==
        if n.status.Done? then Then(n.effects, RunUpdates(us[1..], at + 3, faulty)) else n
  {
  }

  /** A reset of `node` whose first effect is attempted at position `at`:
      force off, wait, force on; the on phase only follows a completed off
      phase. */
  function ResetRun(node: NodeId, at: nat, faulty: set<nat>): Run {
    var bits := ToBitfield(node);
    var off := RunUpdates(BitIterator(0, bits), at, faulty);
    if !off.status.Done? then off
    else Then(off.effects + [Sleep(ResetMs)],
              RunUpdates(BitIterator(bits, bits), at + |off.effects| + 1, faulty))
  }

  /** One step of the update loop, case by case. */
  lemma RunHead(us: seq<Update>, at: nat, faulty: set<nat>)
    requires us != []
    ensures var u, run := us[0], RunUpdates(us, at, faulty);
      var w := Write(ModePath(u.idx + 1), ModeToken(u.state));
      && (at in faulty ==> run == Run([w], Failed(Io(None))))
      && (at !in faulty && u.idx >= NodeCount ==> run == Run([w, Sleep(SettleMs)], Panicked(u.idx)))
      && (at !in faulty && u.idx < NodeCount && at + 2 in faulty ==> run == Run(NodeSteps(u), Failed(Io(None))))
      && (at !in faulty && u.idx < NodeCount && at + 2 !in faulty ==>
            run == Then(NodeSteps(u), RunUpdates(us[1..], at + 3, faulty)))
  {
  }

  lemma ThenThen(a: seq<Effect>, b: seq<Effect>, run: Run)
    ensures Then(a, Then(b, run)) == Then(a + b, run)
  {
    assert a + (b + run.effects) == a + b + run.effects;
  }

  class PowerController {
    /** Line offsets of the enable lines of nodes 1..4. */
    const enable: seq<nat>
    /** Power-light brightness file chosen at construction. */
    const sysfsPower: string
    /** Status-light brightness file chosen at construction. */
    const sysfsReset: string

    predicate Valid() {
      |enable| == NodeCount
    }

    constructor (enable: seq<nat>, sysfsPower: string, sysfsReset: string)
      requires |enable| == NodeCount
      ensures Valid()
      ensures this.enable == enable && this.sysfsPower == sysfsPower && this.sysfsReset == sysfsReset
    {
      this.enable := enable;
      this.sysfsPower := sysfsPower;
      this.sysfsReset := sysfsReset;
    }

    /** Opens the variant's chip, looks up the four enable lines in order and
        resolves both indicator paths. */
    static method New(isLatchingSystem: bool, devices: Devices) returns (r: Result<PowerController>)
      ensures var chip := ChipPath(isLatchingSystem);
        chip !in devices.chips ==> r == Err(Io(Some(chip)))
      ensures var chip := ChipPath(isLatchingSystem);
        chip in devices.chips ==>
          (r.Ok? <==> forall k :: 0 <= k < NodeCount ==> PortNames[k] in devices.chips[chip])
      ensures var chip := ChipPath(isLatchingSystem);
        chip in devices.chips ==>
          forall k :: 0 <= k < NodeCount && PortNames[k] !in devices.chips[chip] &&
                      (forall j :: 0 <= j < k ==> PortNames[j] in devices.chips[chip]) ==>
            r == Err(Message(MissingLineMessages[k]))
      ensures r.Ok? ==>
        var table := devices.chips[ChipPath(isLatchingSystem)];
        r.value.Valid() &&
        (forall k :: 0 <= k < NodeCount ==> PortNames[k] in table && r.value.enable[k] == table[PortNames[k]]) &&
        r.value.sysfsPower == (if SysLedFile in devices.files then SysLedFile else SysLedFile205) &&
        r.value.sysfsReset == (if StatusLedFile in devices.files then StatusLedFile else StatusLedFile205)
    {
      var chip := ChipPath(isLatchingSystem);
      if chip !in devices.chips {
        return Err(Io(Some(chip)));
      }
      var lines := devices.chips[chip];
      if PortNames[0] !in lines {
        return Err(Message(MissingLineMessages[0]));
      }
      var port1 := lines[PortNames[0]];
      if PortNames[1] !in lines {
        return Err(Message(MissingLineMessages[1]));
      }
      var port2 := lines[PortNames[1]];
      if PortNames[2] !in lines {
        return Err(Message(MissingLineMessages[2]));
      }
      var port3 := lines[PortNames[2]];
      if PortNames[3] !in lines {
        return Err(Message(MissingLineMessages[3]));
      }
      var port4 := lines[PortNames[3]];
      var sysfsPower := FallbackIfNotExist(SysLedFile, SysLedFile205, devices.files);
      var sysfsReset := FallbackIfNotExist(StatusLedFile, StatusLedFile205, devices.files);
      var controller := new PowerController([port1, port2, port3, port4], sysfsPower, sysfsReset);
      return Ok(controller);
    }

    /** Powers the masked nodes on or off, one node at a time in ascending
        order: platform write, settle delay, enable-line set; the first
        failure ends the call. */
    method SetPowerNode(kernel: Kernel, nodeStates: u8, nodeMask: u8) returns (status: Status)
      requires Valid()
      modifies kernel
      ensures var run := RunUpdates(BitIterator(nodeStates, nodeMask), |old(kernel.trace)|, kernel.faulty);
        kernel.trace == old(kernel.trace) + run.effects && status == run.status
    {
      status := ApplyUpdates(kernel, BitIterator(nodeStates, nodeMask));
    }

    /** The loop of `SetPowerNode` over the decoded updates. */
    method ApplyUpdates(kernel: Kernel, updates: seq<Update>) returns (status: Status)
      requires Valid()
      modifies kernel
      ensures var run := RunUpdates(updates, |old(kernel.trace)|, kernel.faulty);
        kernel.trace == old(kernel.trace) + run.effects && status == run.status
    {
      ghost var t0, done := kernel.trace, [];
      ghost var goal := RunUpdates(updates, |t0|, kernel.faulty);
      var k := 0;
      assert updates[k..] == updates;
      while k < |updates|
        invariant k <= |updates|
        invariant kernel.trace == t0 + done
        invariant goal == Then(done, RunUpdates(updates[k..], |kernel.trace|, kernel.faulty))
      {
        ghost var at := |kernel.trace|;
        var u := updates[k];
        RunCons(updates[k..], at, kernel.faulty);
        assert updates[k..][0] == u && updates[k..][1..] == updates[k + 1..];
        status := ApplyUpdate(kernel, u);
        assert kernel.trace == t0 + (done + NodeRun(u, at, kernel.faulty).effects);
        if !status.Done? {
          return;
        }
        ghost var rest := RunUpdates(updates[k + 1..], at + 3, kernel.faulty);
        assert NodeRun(u, at, kernel.faulty).effects == NodeSteps(u);
        assert goal == Then(done, Then(NodeSteps(u), rest));
        assert |kernel.trace| == at + 3;
        ThenThen(done, NodeSteps(u), rest);
        done := done + NodeSteps(u);
        k := k + 1;
      }
      assert updates[k..] == [];
      return Done;
    }

    /** Handles one update: writes the node's mode, waits for it to settle and
        drives its enable line, stopping at the first failure. */
    method ApplyUpdate(kernel: Kernel, u: Update) returns (status: Status)
      requires Valid()
      modifies kernel
      ensures var run := NodeRun(u, |old(kernel.trace)|, kernel.faulty);
        kernel.trace == old(kernel.trace) + run.effects && status == run.status
    {
      var ok := SetMode(kernel, u.idx + 1, u.state);
      if !ok {
        return Failed(Io(None));
      }
      kernel.Delay(SettleMs);
      if u.idx >= |enable| {
        return Panicked(u.idx);
      }
      ok := kernel.SetValues(u.idx, u.state);
      if !ok {
        return Failed(Io(None));
      }
      return Done;
    }

    /** Power-cycles one node: off, one second, on. */
    method ResetNode(kernel: Kernel, node: NodeId) returns (status: Status)
      requires Valid()
      modifies kernel
      ensures var run := ResetRun(node, |old(kernel.trace)|, kernel.faulty);
        kernel.trace == old(kernel.trace) + run.effects && status == run.status
    {
      var bits := ToBitfield(node);
      OneHotUpdates(node, 0);
      OneHotUpdates(node, bits);
      ghost var t0 := kernel.trace;
      ghost var off := RunUpdates(BitIterator(0, bits), |t0|, kernel.faulty);
      status := SetPowerNode(kernel, 0, bits);
      if !status.Done? {
        assert ResetRun(node, |t0|, kernel.faulty) == off;
        return;
      }
      assert off.status.Done?;
      kernel.Delay(ResetMs);
      ghost var t1 := kernel.trace;
      assert |t1| == |t0| + |off.effects| + 1;
      assert t1 == t0 + (off.effects + [Sleep(ResetMs)]);
      status := SetPowerNode(kernel, bits, bits);
      ghost var on := RunUpdates(BitIterator(bits, bits), |t1|, kernel.faulty);
      assert kernel.trace == t0 + (off.effects + [Sleep(ResetMs)] + on.effects);
      assert ResetRun(node, |t0|, kernel.faulty) == Then(off.effects + [Sleep(ResetMs)], on);
    }

    /** Switches the power light; a failure is labelled with `SysLedFile` even
        when the fallback file was chosen. */
    method PowerLed(kernel: Kernel, on: bool) returns (status: Status)
      modifies kernel
      ensures kernel.trace == old(kernel.trace) + [Write(sysfsPower, LedToken(on))]
      ensures status == if |old(kernel.trace)| in kernel.faulty then Failed(Io(Some(SysLedFile))) else Done
    {
      var ok := kernel.WriteFile(sysfsPower, if on then "1" else "0");
      status := if ok then Done else Failed(Io(Some(SysLedFile)));
    }

    /** Switches the status light; a failure is labelled with `StatusLedFile`
        even when the fallback file was chosen. */
    method StatusLed(kernel: Kernel, on: bool) returns (status: Status)
      modifies kernel
      ensures kernel.trace == old(kernel.trace) + [Write(sysfsReset, LedToken(on))]
      ensures status == if |old(kernel.trace)| in kernel.faulty then Failed(Io(Some(StatusLedFile))) else Done
    {
      var ok := kernel.WriteFile(sysfsReset, if on then "1" else "0");
      status := if ok then Done else Failed(Io(Some(StatusLedFile)));
    }
  }
}
