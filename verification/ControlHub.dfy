/** The control hub as the program keeps it: objects that are updated in place
    and loops over controls and chips. Every operation is proved to do what
    its function in `ControlModel` says, so what is proved there about all
    runs holds for the objects. */
module ControlHubs {
  import opened ControlModel

  /** The bus, the GPIO chip and sysfs: a call succeeds or not. */
  class Environment {
    const answers: nat -> bool
    var calls: Calls

    constructor (answers: nat -> bool, calls: Calls)
      ensures this.answers == answers && this.calls == calls
    {
      this.answers := answers;
      this.calls := calls;
    }

    method Call(possible: bool) returns (ok: bool)
      modifies this
      ensures (calls, ok) == Attempt(old(calls), answers, possible)
    {
      ok := possible && answers(calls.clock);
      calls := Calls(calls.clock + 1, if ok then calls.failed else calls.failed + 1);
    }
  }

  /** One MCP23017: the driver's fields, and the chip on the board. */
  class Mcp23017 {
    const key: ChipKey
    var usedPins: set<nat>
    var latch: set<nat>
    var available: bool
    var busOpen: bool
    const hasReset: bool
    var lineHeld: bool
    var device: Device

    constructor (key: ChipKey, hasReset: bool, device: Device)
      ensures this.key == key && View() == Chip({}, {}, false, false, hasReset, false) && this.device == device
    {
      this.key := key;
      usedPins, latch, available, busOpen, lineHeld := {}, {}, false, false, false;
      this.hasReset := hasReset;
      this.device := device;
    }

    function View(): Chip
      reads this
    {
      Chip(usedPins, latch, available, busOpen, hasReset, lineHeld)
    }

    function AsRig(env: Environment): Rig
      reads this, env
    {
      Rig(View(), device, env.calls)
    }

    method OpenBus(env: Environment) returns (ok: bool)
      modifies this, env
      ensures (AsRig(env), ok) == ControlModel.OpenBus(old(AsRig(env)), env.answers)
    {
      ok := true;
      if !busOpen {
        ok := env.Call(true);
        busOpen := ok;
      }
    }

    method ReleaseReset(env: Environment) returns (ok: bool)
      modifies this, env
      ensures (AsRig(env), ok) == ControlModel.ReleaseReset(old(AsRig(env)), env.answers)
    {
      if !hasReset {
        return true;
      }
      if !lineHeld {
        ok := env.Call(true);
        if ok {
          lineHeld := true;
          device := device.(inReset := false);
        }
        return;
      }
      ok := env.Call(true);
      if !ok {
        return;
      }
      device := Cleared(device).(inReset := true);
      ok := env.Call(true);
      if ok {
        device := device.(inReset := false);
      }
    }

    method WriteOlat(env: Environment) returns (ok: bool)
      modifies this, env
      ensures (AsRig(env), ok) == ControlModel.WriteOlat(old(AsRig(env)), env.answers)
    {
      ok := env.Call(!device.inReset);
      if ok {
        device := device.(latch := latch);
      }
    }

    method WriteLatch(env: Environment) returns (ok: bool)
      modifies this, env
      ensures (AsRig(env), ok) == ControlModel.WriteLatch(old(AsRig(env)), env.answers)
    {
      ok := OpenBus(env);
      if ok {
        ok := WriteOlat(env);
      }
    }

    method Initialise(env: Environment) returns (ok: bool)
      modifies this, env
      ensures (AsRig(env), ok) == ControlModel.Initialise(old(AsRig(env)), env.answers)
    {
      ok := ReleaseReset(env);
      if !ok {
        return;
      }
      ok := OpenBus(env);
      if !ok {
        return;
      }
      ok := WriteOlat(env);
      if !ok {
        return;
      }
      ok := env.Call(!device.inReset);
      if ok {
        device := device.(inputs := ALL_PINS - usedPins);
      }
    }

    method HoldsSetup(env: Environment) returns (found: SetupCheck)
      modifies this, env
      ensures (AsRig(env), found) == ControlModel.HoldsSetup(old(AsRig(env)), env.answers)
    {
      var ok := OpenBus(env);
      if !ok {
        return NoAnswer;
      }
      ok := env.Call(!device.inReset);
      if !ok {
        return NoAnswer;
      }
      found := if device.inputs == ALL_PINS - usedPins then Holds else Lost;
    }

    method GoAway()
      modifies this
      ensures View() == GoneAway(old(View())) && device == old(device)
    {
      available := false;
      busOpen := false;
    }

    method BringUp(env: Environment)
      modifies this, env
      ensures AsRig(env) == ControlModel.BringUp(old(AsRig(env)), env.answers)
    {
      var ok := Initialise(env);
      if ok {
        available := true;
      } else {
        GoAway();
      }
    }

    method CheckSetup(env: Environment)
      modifies this, env
      ensures AsRig(env) == ControlModel.CheckSetup(old(AsRig(env)), env.answers)
    {
      var found := HoldsSetup(env);
      match found {
        case Holds =>
        case Lost =>
          var ok := Initialise(env);
          if !ok {
            GoAway();
          }
        case NoAnswer =>
          GoAway();
      }
    }

    method SwitchPin(env: Environment, pin: nat, value: Value) returns (ok: bool)
      modifies this, env
      ensures (AsRig(env), ok) == ControlModel.SwitchPin(old(AsRig(env)), env.answers, pin, value)
    {
      hide ControlModel.Initialise, ControlModel.WriteLatch;
      var previous := latch;
      if value == On(true) {
        latch := latch + {pin};
      } else {
        latch := latch - {pin};
      }
      if available {
        ok := WriteLatch(env);
      } else {
        ok := Initialise(env);
      }
      if ok {
        available := true;
      } else {
        latch := previous;
        GoAway();
      }
    }

    method HoldInReset(env: Environment)
      modifies this, env
      ensures AsRig(env) == ControlModel.HoldInReset(old(AsRig(env)), env.answers)
    {
      if lineHeld {
        var ok := env.Call(true);
        if ok {
          device := Cleared(device).(inReset := true);
        }
      }
    }
  }

  /** One PWM channel in use, and what it puts out. */
  class PwmOutput {
    const key: PwmKey
    var available: bool
    var open: bool
    var fan: Fan

    constructor (key: PwmKey, fan: Fan)
      ensures this.key == key && View() == Output(false, false) && this.fan == fan
    {
      this.key := key;
      available, open := false, false;
      this.fan := fan;
    }

    function View(): Output
      reads this
    {
      Output(available, open)
    }

    function AsChannel(env: Environment): Channel
      reads this, env
    {
      Channel(View(), fan, env.calls)
    }

    method Drive(env: Environment, b: Binding, previous: Value, value: Value) returns (ok: bool)
      requires b.Pwm? && b.minLevel <= LEVEL_MAX
      modifies this, env
      ensures (AsChannel(env), ok) == DriveChannel(old(AsChannel(env)), env.answers, b, previous, value)
    {
      ok := TryDrive(env, b, previous, value);
      available, open := ok, ok;
    }

    method TryDrive(env: Environment, b: Binding, previous: Value, value: Value) returns (ok: bool)
      requires b.Pwm? && b.minLevel <= LEVEL_MAX
      modifies this, env
      ensures (AsChannel(env).(out := Output(ok, ok)), ok) == DriveChannel(old(AsChannel(env)), env.answers, b, previous, value)
    {
      hide DutyOf;
      if !open {
        open := env.Call(true);
        if !open {
          return false;
        }
      }
      var duty := DutyOf(b, value);
      var wasOff := !available || DutyOf(b, previous) == 0;
      if duty > 0 && wasOff && b.kick {
        ok := env.Call(true);
        if !ok {
          return;
        }
        fan := Fan(b.periodNs, b.periodNs, true);
      }
      ok := env.Call(true);
      if ok {
        fan := Fan(b.periodNs, duty, true);
      }
    }

    method Disable(env: Environment)
      modifies this, env
      ensures var (calls, ok) := Attempt(old(env.calls), env.answers, true);
        AsChannel(env) == Channel(old(View()), old(fan).(enabled := old(fan.enabled) && !ok), calls)
    {
      var ok := env.Call(true);
      if ok {
        fan := fan.(enabled := false);
      }
    }
  }

  // ------------------------------------------ chips named by the first controls

  lemma ChipKeysOfNone()
    ensures ChipKeys([]) == {}
  {
  }

  lemma ChipKeysStep(controls: seq<Control>, n: nat)
    requires n < |controls|
    ensures ChipKeys(controls[..n + 1]) ==
            ChipKeys(controls[..n]) + (if controls[n].binding.Mcp23017? then {controls[n].binding.chip} else {})
    ensures controls[n].binding.Mcp23017? ==> controls[n].binding.chip in ChipKeys(controls)
  {
    forall key | key in ChipKeys(controls[..n]) ensures key in ChipKeys(controls[..n + 1]) {
      var i :| 0 <= i < n && controls[..n][i].binding.Mcp23017? && controls[..n][i].binding.chip == key;
      assert controls[..n + 1][i] == controls[i];
    }
    assert controls[..n + 1][n] == controls[n];
  }

  lemma PwmKeysOfNone()
    ensures PwmKeys([]) == {}
  {
  }

  lemma RefreshedStaysWired(cfg: Config, h: Hub)
    requires Wired(cfg, h)
    ensures Wired(cfg, h.(states := Refreshed(cfg, h)))
  {
  }

  lemma PwmKeysStep(controls: seq<Control>, n: nat)
    requires n < |controls|
    ensures PwmKeys(controls[..n + 1]) ==
            PwmKeys(controls[..n]) + (if controls[n].binding.Pwm? then {controls[n].binding.pwm} else {})
    ensures controls[n].binding.Pwm? ==> controls[n].binding.pwm in PwmKeys(controls)
  {
    forall key | key in PwmKeys(controls[..n]) ensures key in PwmKeys(controls[..n + 1]) {
      var i :| 0 <= i < n && controls[..n][i].binding.Pwm? && controls[..n][i].binding.pwm == key;
      assert controls[..n + 1][i] == controls[i];
    }
    assert controls[..n + 1][n] == controls[n];
  }

  lemma PinsStep(controls: seq<Control>, states: seq<ControlState>, n: nat, key: ChipKey)
    requires n < |controls| == |states|
    ensures var b := controls[n].binding; var here := b.Mcp23017? && b.chip == key;
      && PinsOf(controls[..n + 1], key) == PinsOf(controls[..n], key) + (if here then {b.pin} else {})
      && PinsOn(controls[..n + 1], states[..n + 1], key) ==
           PinsOn(controls[..n], states[..n], key) + (if here && states[n].value == On(true) then {b.pin} else {})
  {
    forall pin | pin in PinsOf(controls[..n], key) ensures pin in PinsOf(controls[..n + 1], key) {
      var i :| 0 <= i < n && controls[..n][i].binding.Mcp23017? && controls[..n][i].binding.chip == key && controls[..n][i].binding.pin == pin;
      assert controls[..n + 1][i] == controls[i];
    }
    forall pin | pin in PinsOn(controls[..n], states[..n], key) ensures pin in PinsOn(controls[..n + 1], states[..n + 1], key) {
      var i :| 0 <= i < n && controls[..n][i].binding.Mcp23017? && controls[..n][i].binding.chip == key
               && states[..n][i].value == On(true) && controls[..n][i].binding.pin == pin;
      assert controls[..n + 1][i] == controls[i] && states[..n + 1][i] == states[i];
    }
    assert controls[..n + 1][n] == controls[n] && states[..n + 1][n] == states[n];
  }

  /** The first control of a chip decides about its reset; no pin was named
      before it. */
  lemma FirstOfChip(controls: seq<Control>, states: seq<ControlState>, n: nat)
    requires n < |controls| == |states| && controls[n].binding.Mcp23017?
    requires controls[n].binding.chip !in ChipKeys(controls[..n])
    ensures var b := controls[n].binding;
      && ResetOf(controls, b.chip) == b.hasReset
      && PinsOf(controls[..n], b.chip) == {} && PinsOn(controls[..n], states[..n], b.chip) == {}
  {
    var key := controls[n].binding.chip;
    forall i | 0 <= i < n ensures !(controls[i].binding.Mcp23017? && controls[i].binding.chip == key) {
      assert controls[..n][i] == controls[i];
    }
    ResetOfFirst(controls, n, key);
  }

  lemma {:induction false} ResetOfFirst(controls: seq<Control>, n: nat, key: ChipKey)
    requires n < |controls| && controls[n].binding.Mcp23017? && controls[n].binding.chip == key
    requires forall i :: 0 <= i < n ==> !(controls[i].binding.Mcp23017? && controls[i].binding.chip == key)
    ensures ResetOf(controls, key) == controls[n].binding.hasReset
  {
    if n > 0 {
      ResetOfFirst(controls[1..], n - 1, key);
    }
  }

  lemma PutRigWired(cfg: Config, h: Hub, key: ChipKey, rig: Rig)
    requires Wired(cfg, h) && key in h.chips
    ensures h.chips.Keys == h.world.devices.Keys && h.outputs.Keys == h.world.fans.Keys
    ensures Wired(cfg, PutRig(h, key, rig)) && PutRig(h, key, rig).world.devices.Keys == h.world.devices.Keys
  {
    hide Fitted;
  }

  lemma PutChannelWired(cfg: Config, h: Hub, key: PwmKey, ch: Channel)
    requires Wired(cfg, h) && key in h.outputs
    ensures h.chips.Keys == h.world.devices.Keys && h.outputs.Keys == h.world.fans.Keys
    ensures Wired(cfg, PutChannel(h, key, ch)) && PutChannel(h, key, ch).world.fans.Keys == h.world.fans.Keys
  {
    hide Fitted;
  }

  /** `ControlHub` with its `Inner`. `model` is the value of `ControlModel`
      that the fields hold together. */
  class ControlHub {
    const cfg: Config
    const env: Environment
    var states: seq<ControlState>
    var chips: map<ChipKey, Mcp23017>
    var outputs: map<PwmKey, PwmOutput>
    var shuttingDown: bool
    var boosting: bool
    var normal: map<string, Value>
    var saved: map<string, Value>       // the table of the database
    var announced: seq<ControlState>    // everything sent on the channel
    ghost var model: Hub

    /** Skips the entries whose id was used before. */
    static method KnownControls(entries: seq<Control>) returns (controls: seq<Control>)
      ensures controls == ControlModel.Distinct(entries) && UniqueIds(controls)
    {
      controls := [];
      for i := 0 to |entries|
        invariant controls == ControlModel.Distinct(entries[..i])
      {
        assert entries[..i + 1][..i] == entries[..i];
        var known := false;
        for k := 0 to |controls|
          invariant known <==> exists j :: 0 <= j < k && controls[j].id == entries[i].id
        {
          if controls[k].id == entries[i].id {
            known := true;
          }
        }
        if !known {
          controls := controls + [entries[i]];
        }
      }
      assert entries[..|entries|] == entries;
    }

    /** `with_pwm` on checked entries without duplicate ids: builds the states
        from the saved values, a chip for every expander named and an output
        for every channel, and brings them up. */
    constructor (cfg: Config, saved: map<string, Value>, world: World, order: seq<ChipKey>)
      requires WorldFor(cfg, world)
      ensures this.cfg == cfg && Valid() && model == Start(cfg, saved, world, order)
      ensures fresh(env) && fresh(chips.Values) && fresh(outputs.Values)
    {
      hide Assembled, Wired, HardwareShown, ControlModel.BringUpAll, ControlModel.BringUpPwm, Refreshed, ChipKeys, PwmKeys;
      this.cfg := cfg;
      env := new Environment(cfg.answers, world.calls);
      states, chips, outputs := [], map[], map[];
      shuttingDown, boosting, normal, announced := false, false, map[], [];
      this.saved := saved;
      model := Assembled(cfg, saved, world);
      new;
      Assemble(world);
      BringUpHardware(order);
    }

    method Assemble(world: World)
      requires WorldFor(cfg, world) && model == Assembled(cfg, saved, world)
      requires chips == map[] && outputs == map[] && announced == [] && normal == map[] && !boosting && !shuttingDown
      requires env.answers == cfg.answers && env.calls == world.calls
      modifies this`states, this`chips, this`outputs
      ensures Valid()
      ensures fresh(chips.Values) && fresh(outputs.Values)
    {
      hide StartStates, ChipKeys, PwmKeys, Wired, Built, OutputBuilt, Valid;
      BuildStates();
      BuildChips(world);
      BuildOutputs(world);
      BuiltIsValid(world);
    }

    lemma BuiltIsValid(world: World)
      requires WorldFor(cfg, world) && model == Assembled(cfg, saved, world)
      requires announced == [] && normal == map[] && !boosting && !shuttingDown
      requires env.answers == cfg.answers && env.calls == world.calls
      requires states == StartStates(cfg.controls, saved)
      requires chips.Keys == ChipKeys(cfg.controls) && forall key :: key in chips ==> Built(key, |cfg.controls|, world)
      requires outputs.Keys == PwmKeys(cfg.controls) && forall key :: key in outputs ==> OutputBuilt(key, world)
      ensures Valid()
    {
      hide StartStates, ChipKeys, PwmKeys, Wired, Built, OutputBuilt, ChipShown, OutputShown;
      BuiltChipsShown(world);
      BuiltOutputsShown(world);
    }

    lemma BuiltChipsShown(world: World)
      requires WorldFor(cfg, world) && model == Assembled(cfg, saved, world) && states == model.states && |states| == |cfg.controls|
      requires chips.Keys == ChipKeys(cfg.controls) == world.devices.Keys
      requires forall key :: key in chips ==> Built(key, |cfg.controls|, world)
      ensures forall key :: key in chips ==> ChipShown(key)
    {
      hide PinsOn, PinsOf, ResetOf, StartStates, ChipKeys, PwmKeys, Wired, Mcp23017.View;
      assert cfg.controls[..|cfg.controls|] == cfg.controls && states[..|states|] == states;
      forall key | key in chips ensures ChipShown(key) {
        assert Built(key, |cfg.controls|, world);
      }
    }

    lemma BuiltOutputsShown(world: World)
      requires WorldFor(cfg, world) && model == Assembled(cfg, saved, world)
      requires outputs.Keys == PwmKeys(cfg.controls) == world.fans.Keys
      requires forall key :: key in outputs ==> OutputBuilt(key, world)
      ensures forall key :: key in outputs ==> OutputShown(key)
    {
      hide StartStates, ChipKeys, PwmKeys, Wired, PwmOutput.View;
      forall key | key in outputs ensures OutputShown(key) {
        assert OutputBuilt(key, world);
      }
    }

    /** The block that `with_pwm` ends with. */
    method BringUpHardware(order: seq<ChipKey>)
      requires Valid()
      modifies this`states, this`model, env, chips.Values, outputs.Values
      ensures Valid()
      ensures var up := ControlModel.BringUpPwm(cfg, ControlModel.BringUpAll(cfg, old(model), order), 0);
        model == up.(states := Refreshed(cfg, up))
    {
      hide ControlModel.BringUpAll, ControlModel.BringUpPwm, Refreshed, Changes, Reachable, HardwareShown;
      BringUpAll(order);
      BringUpPwm();
      var _ := RefreshAvailability();
      assert Wired(cfg, model.(states := states)) by { RefreshedStaysWired(cfg, model); }
      Adopt(model.(states := states));
    }

    method BuildStates()
      modifies this`states
      ensures states == StartStates(cfg.controls, saved)
    {
      states := [];
      for i := 0 to |cfg.controls|
        invariant |states| == i
        invariant forall k :: 0 <= k < i ==>
          states[k] == ControlState(cfg.controls[k].id, StartValue(cfg.controls[k], saved), true)
      {
        var control := cfg.controls[i];
        var value := OffValue(control);
        if control.restore && control.id in saved && (saved[control.id].On? <==> control.kind == Switch) {
          match saved[control.id] {
            case On(on) => value := On(on);
            case Level(level) => value := Level(if level < LEVEL_MAX then level else LEVEL_MAX);
          }
        }
        states := states + [ControlState(control.id, value, true)];
      }
    }

    /** A chip as `BuildChips` has it after the first `n` controls. */
    ghost predicate Built(key: ChipKey, n: nat, world: World)
      requires n <= |cfg.controls| == |states|
      reads this`chips, this`states, chips.Values
    {
      && key in chips && key in world.devices
      && chips[key].key == key && chips[key].device == world.devices[key]
      && chips[key].View() == Chip(PinsOf(cfg.controls[..n], key), PinsOn(cfg.controls[..n], states[..n], key),
                                   false, false, ResetOf(cfg.controls, key), false)
    }

    method BuildChips(world: World)
      requires world.devices.Keys == ChipKeys(cfg.controls) && |states| == |cfg.controls|
      requires chips == map[]
      modifies this`chips
      ensures chips.Keys == ChipKeys(cfg.controls) && fresh(chips.Values)
      ensures forall key :: key in chips ==> Built(key, |cfg.controls|, world)
    {
      hide ResetOf, PinsOf, PinsOn, ChipKeys;
      assert ChipKeys(cfg.controls[..0]) == {} by { ChipKeysOfNone(); }
      for i := 0 to |cfg.controls|
        invariant chips.Keys == ChipKeys(cfg.controls[..i])
        invariant forall key :: key in chips ==> fresh(chips[key])
        invariant forall key :: key in chips ==> Built(key, i, world)
      {
        NameChip(i, world);
      }
      assert cfg.controls[..|cfg.controls|] == cfg.controls;
    }

    /** One round: the chip of control `i` exists, and knows its pin. */
    method NameChip(i: nat, world: World)
      requires i < |cfg.controls| == |states| && world.devices.Keys == ChipKeys(cfg.controls)
      requires chips.Keys == ChipKeys(cfg.controls[..i])
      requires forall key :: key in chips ==> Built(key, i, world)
      modifies this`chips, chips.Values
      ensures chips.Keys == ChipKeys(cfg.controls[..i + 1])
      ensures forall key :: key in chips ==> fresh(chips[key]) || (key in old(chips) && chips[key] == old(chips[key]))
      ensures forall key :: key in chips ==> Built(key, i + 1, world)
    {
      hide ResetOf, PinsOf, PinsOn, ChipKeys, Built;
      ChipKeysStep(cfg.controls, i);
      if cfg.controls[i].binding.Mcp23017? {
        AddChip(i, world);
        NamePin(i, world);
      } else {
        forall key | key in chips ensures Built(key, i + 1, world) {
          BuiltOn(key, i, world);
        }
      }
    }

    /** A control elsewhere adds nothing to a chip. */
    lemma BuiltOn(key: ChipKey, i: nat, world: World)
      requires i < |cfg.controls| == |states| && Built(key, i, world)
      requires var b := cfg.controls[i].binding; !(b.Mcp23017? && b.chip == key)
      ensures Built(key, i + 1, world)
    {
      hide ResetOf, PinsOf, PinsOn;
      PinsStep(cfg.controls, states, i, key);
    }

    method AddChip(i: nat, world: World)
      requires i < |cfg.controls| == |states| && cfg.controls[i].binding.Mcp23017?
      requires chips.Keys == ChipKeys(cfg.controls[..i]) && cfg.controls[i].binding.chip in world.devices
      requires forall key :: key in chips ==> Built(key, i, world)
      modifies this`chips
      ensures chips.Keys == old(chips).Keys + {cfg.controls[i].binding.chip}
      ensures forall key :: key in chips ==> fresh(chips[key]) || (key in old(chips) && chips[key] == old(chips[key]))
      ensures forall key :: key in chips ==> Built(key, i, world)
    {
      hide ResetOf, PinsOf, PinsOn, ChipKeys;
      var b := cfg.controls[i].binding;
      if b.chip !in chips {
        var chip := new Mcp23017(b.chip, b.hasReset, world.devices[b.chip]);
        chips := chips[b.chip := chip];
        FirstOfChip(cfg.controls, states, i);
        forall key | key in chips ensures Built(key, i, world) {
          assert key in old(chips) ==> old(Built(key, i, world));
        }
      }
    }

    method NamePin(i: nat, world: World)
      requires i < |cfg.controls| == |states| && cfg.controls[i].binding.Mcp23017? && cfg.controls[i].binding.chip in chips
      requires forall key :: key in chips ==> Built(key, i, world)
      modifies chips[cfg.controls[i].binding.chip]
      ensures forall key :: key in chips ==> Built(key, i + 1, world)
    {
      hide ResetOf, PinsOf, PinsOn;
      var b := cfg.controls[i].binding;
      var chip := chips[b.chip];
      assert Built(b.chip, i, world);
      chip.usedPins := chip.usedPins + {b.pin};
      if states[i].value == On(true) {
        chip.latch := chip.latch + {b.pin};
      }
      forall key | key in chips ensures Built(key, i + 1, world) {
        assert old(Built(key, i, world));
        PinsStep(cfg.controls, states, i, key);
      }
    }

    ghost predicate OutputBuilt(key: PwmKey, world: World)
      reads this`outputs, outputs.Values
    {
      && key in outputs && key in world.fans
      && outputs[key].key == key && outputs[key].View() == Output(false, false) && outputs[key].fan == world.fans[key]
    }

    method BuildOutputs(world: World)
      requires world.fans.Keys == PwmKeys(cfg.controls) && outputs == map[]
      modifies this`outputs
      ensures outputs.Keys == PwmKeys(cfg.controls) && fresh(outputs.Values)
      ensures forall key :: key in outputs ==> OutputBuilt(key, world)
    {
      hide PwmKeys, PwmOutput.View;
      assert PwmKeys(cfg.controls[..0]) == {} by { PwmKeysOfNone(); }
      for i := 0 to |cfg.controls|
        invariant outputs.Keys == PwmKeys(cfg.controls[..i])
        invariant forall key :: key in outputs ==> fresh(outputs[key])
        invariant forall key :: key in outputs ==> OutputBuilt(key, world)
      {
        label Before:
        var b := cfg.controls[i].binding;
        PwmKeysStep(cfg.controls, i);
        if b.Pwm? {
          var output := new PwmOutput(b.pwm, world.fans[b.pwm]);
          outputs := outputs[b.pwm := output];
          forall key | key in outputs ensures OutputBuilt(key, world) {
            assert key != b.pwm ==> old@Before(OutputBuilt(key, world));
          }
        }
      }
      assert cfg.controls[..|cfg.controls|] == cfg.controls;
    }

    ghost predicate ChipShown(key: ChipKey)
      reads this`chips, this`model, chips.Values
    {
      && key in chips && key in model.chips && key in model.world.devices
      && chips[key].key == key && chips[key].View() == model.chips[key] && chips[key].device == model.world.devices[key]
    }

    ghost predicate OutputShown(key: PwmKey)
      reads this`outputs, this`model, outputs.Values
    {
      && key in outputs && key in model.outputs && key in model.world.fans
      && outputs[key].key == key && outputs[key].View() == model.outputs[key] && outputs[key].fan == model.world.fans[key]
    }

    /** All chips but those of `but`. */
    ghost predicate ChipsShown(but: set<ChipKey>)
      reads this`chips, this`model, chips.Values
    {
      && chips.Keys == model.chips.Keys == model.world.devices.Keys
      && forall key :: key in chips && key !in but ==> ChipShown(key)
    }

    ghost predicate OutputsShown(but: set<PwmKey>)
      reads this`outputs, this`model, outputs.Values
    {
      && outputs.Keys == model.outputs.Keys == model.world.fans.Keys
      && forall key :: key in outputs && key !in but ==> OutputShown(key)
    }

    ghost predicate HardwareShown()
      reads this`chips, this`outputs, this`model, env, chips.Values, outputs.Values
    {
      env.answers == cfg.answers && env.calls == model.world.calls && ChipsShown({}) && OutputsShown({})
    }

    /** The other fields. */
    ghost predicate FieldsShown()
      reads this
    {
      model == Hub(states, model.chips, model.outputs, boosting, normal, shuttingDown, saved, announced, model.world)
    }

    ghost predicate Valid()
      reads this, env, chips.Values, outputs.Values
    {
      Wired(cfg, model) && HardwareShown() && FieldsShown()
    }

    method IsReachable(c: Control) returns (available: bool)
      requires HardwareShown()
      ensures available == Reachable(c, model)
    {
      match c.binding {
        case Demo => available := true;
        case Mcp23017(key, _, _) =>
          available := key in chips && chips[key].available;
          assert key in chips ==> ChipShown(key);
        case Pwm(key, _, _, _, _, _) =>
          available := key in outputs && outputs[key].available;
          assert key in outputs ==> OutputShown(key);
      }
    }

    /** A channel is open and driven exactly if the model says so. */
    lemma OutputIs(index: nat)
      requires Valid() && index < |cfg.controls| && cfg.controls[index].binding.Pwm?
      ensures var key := cfg.controls[index].binding.pwm;
        && key in outputs && key in model.outputs
        && outputs[key].available == model.outputs[key].available && outputs[key].open == model.outputs[key].open
    {
      assert Fitted(cfg.controls[index], model.states[index].id, model.chips.Keys, model.outputs.Keys);
      assert OutputShown(cfg.controls[index].binding.pwm);
    }

    /** Sets `available` of every state from its hardware; returns the states
        that changed. */
    method RefreshAvailability() returns (changed: seq<ControlState>)
      requires Valid()
      modifies this`states
      ensures HardwareShown() && states == Refreshed(cfg, old(model))
      ensures changed == Changes(old(states), states, |states|)
    {
      hide Reachable, HardwareShown, Fitted;
      changed := UpdateStates(Refreshed(cfg, model));
    }

    method UpdateStates(ghost after: seq<ControlState>) returns (changed: seq<ControlState>)
      requires HardwareShown() && |states| == |cfg.controls| == |after|
      requires forall i :: 0 <= i < |after| ==> after[i] == states[i].(available := Reachable(cfg.controls[i], model))
      modifies this`states
      ensures HardwareShown() && states == after
      ensures changed == Changes(old(states), after, |after|)
    {
      hide Reachable, HardwareShown;
      changed := [];
      for i := 0 to |cfg.controls|
        invariant |states| == |cfg.controls| && HardwareShown()
        invariant forall k :: 0 <= k < |states| ==> states[k] == if k < i then after[k] else old(states)[k]
        invariant changed == Changes(old(states), after, i)
      {
        var available := IsReachable(cfg.controls[i]);
        if states[i].available != available {
          states := states[i := states[i].(available := available)];
          changed := changed + [states[i]];
        }
      }
    }

    method RefreshAndAnnounce(all: bool, except: string)
      requires Valid()
      modifies this`states, this`announced, this`model
      ensures Valid() && model == RefreshAndSend(cfg, old(model), all, except)
    {
      hide Refreshed, Changes, Others, Fitted, Mcp23017.View, PwmOutput.View;
      var changed := RefreshAvailability();
      announced := announced + (if all then changed else Others(changed, except));
      Adopt(RefreshAndSend(cfg, model, all, except));
    }

    /** Channels are shown as long as their part of the model stays, and so are
        chips. */
    twostate lemma OutputsStay(but: set<PwmKey>)
      requires old(OutputsShown(but)) && outputs == old(outputs) && unchanged(outputs.Values)
      requires model.outputs.Keys == old(model.outputs).Keys && model.world.fans.Keys == old(model.world.fans).Keys
      requires forall key :: key in outputs && key !in but ==>
        key in model.outputs && key in model.world.fans
        && model.outputs[key] == old(model.outputs)[key] && model.world.fans[key] == old(model.world.fans)[key]
      ensures OutputsShown(but)
    {
      hide PwmOutput.View;
      forall key | key in outputs && key !in but ensures OutputShown(key) {
        assert old(OutputShown(key));
      }
    }

    twostate lemma ChipsStay(but: set<ChipKey>)
      requires old(ChipsShown(but)) && chips == old(chips) && unchanged(chips.Values)
      requires model.chips.Keys == old(model.chips).Keys && model.world.devices.Keys == old(model.world.devices).Keys
      requires forall key :: key in chips && key !in but ==>
        key in model.chips && key in model.world.devices
        && model.chips[key] == old(model.chips)[key] && model.world.devices[key] == old(model.world.devices)[key]
      ensures ChipsShown(but)
    {
      hide Mcp23017.View;
      forall key | key in chips && key !in but ensures ChipShown(key) {
        assert old(ChipShown(key));
      }
    }

    /** The fields other than the hardware have changed to those of `h`. */
    ghost method Adopt(h: Hub)
      requires Wired(cfg, h) && HardwareShown()
      requires h == Hub(states, model.chips, model.outputs, boosting, normal, shuttingDown, saved, announced, model.world)
      modifies this`model
      ensures Valid() && model == h
    {
      hide Mcp23017.View, PwmOutput.View, Fitted;
      model := h;
      assert HardwareShown() by {
        forall k | k in chips ensures ChipShown(k) {
          assert old(ChipShown(k));
        }
        forall k | k in outputs ensures OutputShown(k) {
          assert old(OutputShown(k));
        }
      }
    }

    /** Only the chip at `key` and the environment have changed: the model
        takes their new state over. */
    ghost method ChipTouched(key: ChipKey, rig: Rig)
      requires Wired(cfg, model) && FieldsShown() && OutputsShown({}) && ChipsShown({key}) && env.answers == cfg.answers
      requires key in chips && chips[key].key == key && chips[key].AsRig(env) == rig
      modifies this`model
      ensures Valid() && model == PutRig(old(model), key, rig)
    {
      hide Mcp23017.View, PwmOutput.View, Wired, OutputShown, ChipShown;
      PutRigWired(cfg, model, key, rig);
      ghost var before := model;
      model := PutRig(model, key, rig);
      OutputsStay({});
      ChipsStay({key});
      ShowsRig(before, key, rig);
      hide OutputsShown, PutRig;
    }

    lemma ShowsRig(before: Hub, key: ChipKey, rig: Rig)
      requires key in chips && chips[key].key == key && chips[key].AsRig(env) == rig && model == PutRig(before, key, rig)
      ensures ChipShown(key) && model.world.calls == env.calls
    {
    }

    ghost method OutputTouched(key: PwmKey, ch: Channel)
      requires Wired(cfg, model) && FieldsShown() && ChipsShown({}) && OutputsShown({key}) && env.answers == cfg.answers
      requires key in outputs && outputs[key].key == key && outputs[key].AsChannel(env) == ch
      modifies this`model
      ensures Valid() && model == PutChannel(old(model), key, ch)
    {
      hide Mcp23017.View, PwmOutput.View, Wired, OutputShown, ChipShown;
      PutChannelWired(cfg, model, key, ch);
      ghost var before := model;
      model := PutChannel(model, key, ch);
      ChipsStay({});
      OutputsStay({key});
      ShowsChannel(before, key, ch);
      hide ChipsShown, PutChannel;
    }

    lemma ShowsChannel(before: Hub, key: PwmKey, ch: Channel)
      requires key in outputs && outputs[key].key == key && outputs[key].AsChannel(env) == ch
      requires model == PutChannel(before, key, ch)
      ensures OutputShown(key) && model.world.calls == env.calls
    {
    }

    // ------------------------------------------------------------- operations

    method PutOnHardware(index: nat, value: Value) returns (ok: bool)
      requires Valid() && index < |cfg.controls|
      modifies this`states, this`announced, this`model, env, chips.Values, outputs.Values
      ensures Valid() && (model, ok) == ControlModel.PutOnHardware(cfg, old(model), index, value)
    {
      hide Touch, RefreshAndSend, HardwareShown, Wired;
      ok := true;
      if !cfg.controls[index].binding.Demo? {
        ok := TouchHardware(index, value);
        RefreshAndAnnounce(!ok, cfg.controls[index].id);
      }
    }

    /** The write to the chip or the channel. */
    method TouchHardware(index: nat, value: Value) returns (ok: bool)
      requires Valid() && index < |cfg.controls| && !cfg.controls[index].binding.Demo?
      modifies this`model, env, chips.Values, outputs.Values
      ensures Valid() && (model, ok) == Touch(cfg, old(model), index, value)
    {
      hide ControlModel.SwitchPin, DriveChannel, PutRig, PutChannel, HardwareShown;
      if cfg.controls[index].binding.Mcp23017? {
        ok := WritePin(index, value);
      } else {
        ok := DriveOutput(index, states[index].value, value);
      }
    }

    method WritePin(index: nat, value: Value) returns (ok: bool)
      requires Valid() && index < |cfg.controls| && cfg.controls[index].binding.Mcp23017?
      modifies this`model, env, chips.Values
      ensures Valid()
      ensures var b := cfg.controls[index].binding;
        var done := ControlModel.SwitchPin(RigAt(old(model), b.chip), cfg.answers, b.pin, value);
        model == PutRig(old(model), b.chip, done.0) && ok == done.1
    {
      hide ControlModel.SwitchPin, Mcp23017.View, PwmOutput.View;
      var b := cfg.controls[index].binding;
      assert ChipShown(b.chip);
      ok := chips[b.chip].SwitchPin(env, b.pin, value);
      ChipTouched(b.chip, chips[b.chip].AsRig(env));
    }

    method Save(id: string, value: Value)
      modifies this`saved
      ensures saved == if cfg.saving then old(saved)[id := value] else old(saved)
    {
      if cfg.saving {
        saved := saved[id := value];
      }
    }

    method FindControl(id: string) returns (index: nat)
      ensures index == IndexOf(cfg.controls, id)
    {
      index := 0;
      while index < |cfg.controls| && cfg.controls[index].id != id
        invariant index <= |cfg.controls|
        invariant IndexOf(cfg.controls, id) == index + IndexOf(cfg.controls[index..], id)
      {
        index := index + 1;
      }
    }

    method KeepAside(index: nat, value: Value)
      requires Valid() && index < |cfg.controls|
      modifies this
      ensures Valid() && model == KeepForLater(cfg, old(model), index, value)
      ensures chips == old(chips) && outputs == old(outputs)
    {
      hide HardwareShown, Fitted;
      var id := cfg.controls[index].id;
      normal := normal[id := value];
      Save(id, value);
      announced := announced + [states[index]];
      Adopt(KeepForLater(cfg, model, index, value));
    }

    method RecordState(index: nat, value: Value)
      requires Valid() && index < |cfg.controls|
      modifies this
      ensures Valid() && model == Record(cfg, old(model), index, value)
      ensures chips == old(chips) && outputs == old(outputs)
    {
      hide HardwareShown, Fitted;
      var state := ControlState(cfg.controls[index].id, value, true);
      states := states[index := state];
      Save(state.id, value);
      announced := announced + [state];
      Adopt(Record(cfg, model, index, value));
    }

    method ShowState(index: nat, value: Value)
      requires Valid() && index < |cfg.controls|
      modifies this
      ensures Valid() && model == Show(cfg, old(model), index, value)
      ensures chips == old(chips) && outputs == old(outputs)
    {
      hide HardwareShown, Fitted;
      states := states[index := states[index].(value := value)];
      announced := announced + [states[index]];
      Adopt(Show(cfg, model, index, value));
    }

    method Set(id: string, value: Value) returns (result: SetResult)
      requires Valid()
      modifies this, env, chips.Values, outputs.Values
      ensures Valid() && (model, result) == ControlModel.Set(cfg, old(model), id, value)
      ensures chips == old(chips) && outputs == old(outputs)
    {
      hide ControlModel.PutOnHardware, Record, KeepForLater, HardwareShown, Fitted, IndexOf;
      if shuttingDown {
        return Refused(Unavailable);
      }
      var index := FindControl(id);
      if index == |cfg.controls| {
        return Refused(NotFound);
      }
      if !Fits(cfg.controls[index].kind, value) {
        return Refused(InvalidValue);
      }
      if boosting && cfg.controls[index].boost {
        result := Done(states[index]);
        KeepAside(index, value);
        return;
      }
      var ok := PutOnHardware(index, value);
      if !ok {
        return Refused(Unavailable);
      }
      RecordState(index, value);
      return Done(ControlState(id, value, true));
    }

    /** Keeps the own value of a boosted control aside, or takes it back;
        returns the value to put on the hardware. */
    method TakeTarget(index: nat, overheated: bool) returns (target: Value)
      requires Valid() && index < |cfg.controls|
      modifies this`normal, this`model
      ensures Valid()
      ensures model == SetAside(cfg, old(model), index, overheated)
      ensures target == Target(cfg, old(model), index, overheated)
    {
      hide HardwareShown, Fitted;
      var control := cfg.controls[index];
      if overheated {
        normal := normal[control.id := states[index].value];
        target := FullValue(control.kind);
      } else {
        target := if control.id in normal then normal[control.id] else states[index].value;
        normal := normal - {control.id};
      }
      Adopt(model.(normal := normal));
    }

    /** One control follows the CPU temperature. */
    method Follow(index: nat, overheated: bool)
      requires Valid() && index < |cfg.controls|
      modifies this, env, chips.Values, outputs.Values
      ensures Valid() && model == ControlModel.Follow(cfg, old(model), index, overheated)
      ensures chips == old(chips) && outputs == old(outputs)
    {
      hide ControlModel.PutOnHardware, Show, HardwareShown, Fitted;
      if cfg.controls[index].boost {
        var target := TakeTarget(index, overheated);
        var ok := PutOnHardware(index, target);
        if ok {
          ShowState(index, target);
        }
      }
    }

    method SetOverheated(overheated: bool)
      requires Valid()
      modifies this, env, chips.Values, outputs.Values
      ensures Valid() && model == ControlModel.SetOverheated(cfg, old(model), overheated)
      ensures chips == old(chips) && outputs == old(outputs)
    {
      hide ControlModel.Follow, HardwareShown, Fitted;
      if shuttingDown || boosting == overheated {
        return;
      }
      boosting := overheated;
      ghost var start := model.(boosting := overheated);
      assert HardwareShown();
      Adopt(start);
      for index := 0 to |cfg.controls|
        invariant Valid() && chips == old(chips) && outputs == old(outputs)
        invariant FollowFrom(cfg, model, index, overheated) == FollowFrom(cfg, start, 0, overheated)
      {
        Follow(index, overheated);
      }
    }

    /** Reads the setup of one chip back if it answers. */
    method CheckChip(key: ChipKey)
      requires Valid() && key in chips
      modifies this`model, env, chips[key]
      ensures Valid()
      ensures model == PutRig(old(model), key, ControlModel.CheckSetup(RigAt(old(model), key), cfg.answers))
    {
      hide ControlModel.CheckSetup, Mcp23017.View, PwmOutput.View, Fitted;
      assert ChipShown(key);
      chips[key].CheckSetup(env);
      ChipTouched(key, chips[key].AsRig(env));
    }

    method BringUpChip(key: ChipKey)
      requires Valid() && key in chips
      modifies this`model, env, chips[key]
      ensures Valid()
      ensures model == PutRig(old(model), key, ControlModel.BringUp(RigAt(old(model), key), cfg.answers))
    {
      hide ControlModel.BringUp, Mcp23017.View, PwmOutput.View, Fitted;
      assert ChipShown(key);
      chips[key].BringUp(env);
      ChipTouched(key, chips[key].AsRig(env));
    }

    method HoldChip(key: ChipKey)
      requires Valid() && key in chips
      modifies this`model, env, chips[key]
      ensures Valid()
      ensures model == PutRig(old(model), key, ControlModel.HoldInReset(RigAt(old(model), key), cfg.answers))
    {
      hide ControlModel.HoldInReset, Mcp23017.View, PwmOutput.View, Fitted;
      assert ChipShown(key);
      chips[key].HoldInReset(env);
      ChipTouched(key, chips[key].AsRig(env));
    }

    method DriveOutput(index: nat, previous: Value, value: Value) returns (ok: bool)
      requires Valid() && index < |cfg.controls| && cfg.controls[index].binding.Pwm?
      modifies this`model, env, outputs.Values
      ensures Valid()
      ensures var b := cfg.controls[index].binding;
        var done := DriveChannel(ChannelAt(old(model), b.pwm), cfg.answers, b, previous, value);
        model == PutChannel(old(model), b.pwm, done.0) && ok == done.1
    {
      hide DriveChannel, Mcp23017.View, PwmOutput.View;
      var b := cfg.controls[index].binding;
      assert OutputShown(b.pwm);
      ok := outputs[b.pwm].Drive(env, b, previous, value);
      OutputTouched(b.pwm, outputs[b.pwm].AsChannel(env));
    }

    /** The loops over all chips and channels; a hash map hands its keys out
        in any `order`. */
    method BringUpAll(order: seq<ChipKey>)
      requires Valid()
      modifies this`model, env, chips.Values
      ensures Valid() && model == ControlModel.BringUpAll(cfg, old(model), order)
    {
      hide BringUp, Fitted, PutRig;
      for i := 0 to |order|
        invariant Valid()
        invariant ControlModel.BringUpAll(cfg, model, order[i..]) == ControlModel.BringUpAll(cfg, old(model), order)
      {
        var key := order[i];
        assert order[i..][1..] == order[i + 1..];
        assert key in chips ==> ChipShown(key);
        if key in chips && !chips[key].available {
          BringUpChip(key);
        }
      }
    }

    method CheckAll(order: seq<ChipKey>)
      requires Valid()
      modifies this`model, env, chips.Values
      ensures Valid() && model == ControlModel.CheckAll(cfg, old(model), order)
    {
      hide CheckSetup, Fitted, PutRig;
      for i := 0 to |order|
        invariant Valid()
        invariant ControlModel.CheckAll(cfg, model, order[i..]) == ControlModel.CheckAll(cfg, old(model), order)
      {
        var key := order[i];
        assert order[i..][1..] == order[i + 1..];
        assert key in chips ==> ChipShown(key);
        if key in chips && chips[key].available {
          CheckChip(key);
        }
      }
    }

    method BringUpPwm()
      requires Valid()
      modifies this`model, env, outputs.Values
      ensures Valid() && model == ControlModel.BringUpPwm(cfg, old(model), 0)
    {
      hide DriveChannel, PutChannel, HardwareShown, Wired;
      for index := 0 to |cfg.controls|
        invariant Valid()
        invariant ControlModel.BringUpPwm(cfg, model, index) == ControlModel.BringUpPwm(cfg, old(model), 0)
      {
        if cfg.controls[index].binding.Pwm? {
          DriveIfAway(index);
        }
      }
    }

    method DriveIfAway(index: nat)
      requires Valid() && index < |cfg.controls| && cfg.controls[index].binding.Pwm?
      modifies this`model, env, outputs.Values
      ensures Valid()
      ensures ControlModel.BringUpPwm(cfg, model, index + 1) == ControlModel.BringUpPwm(cfg, old(model), index)
    {
      hide DriveChannel, PutChannel, HardwareShown, Fitted;
      var key := cfg.controls[index].binding.pwm;
      OutputIs(index);
      if !outputs[key].available {
        var _ := DriveOutput(index, OffValue(cfg.controls[index]), states[index].value);
      }
    }

    method RetryUnavailable(order: seq<ChipKey>)
      requires Valid()
      modifies this, env, chips.Values, outputs.Values
      ensures Valid() && model == Retry(cfg, old(model), order)
      ensures chips == old(chips) && outputs == old(outputs)
    {
      hide ControlModel.CheckAll, ControlModel.BringUpAll, ControlModel.BringUpPwm, RefreshAndSend, HardwareShown, Fitted;
      if shuttingDown {
        return;
      }
      CheckAll(order);
      BringUpAll(order);
      BringUpPwm();
      RefreshAndAnnounce(true, "");
    }

    method StopOutput(key: PwmKey)
      requires Valid() && key in outputs
      modifies this`model, env, outputs[key]
      ensures Valid()
      ensures var ch := ChannelAt(old(model), key); var call := Attempt(ch.calls, cfg.answers, true);
        model == PutChannel(old(model), key, ch.(calls := call.0, fan := ch.fan.(enabled := ch.fan.enabled && !call.1)))
    {
      hide Attempt, Mcp23017.View, Fitted;
      assert OutputShown(key);
      outputs[key].Disable(env);
      OutputTouched(key, outputs[key].AsChannel(env));
    }

    method StopOutputs()
      requires Valid()
      modifies this`model, env, outputs.Values
      ensures Valid() && model == ControlModel.StopOutputs(cfg, old(model), 0)
    {
      hide PutChannel, Attempt, HardwareShown, Fitted;
      for index := 0 to |cfg.controls|
        invariant Valid()
        invariant ControlModel.StopOutputs(cfg, model, index) == ControlModel.StopOutputs(cfg, old(model), 0)
      {
        if cfg.controls[index].binding.Pwm? {
          StopIfWanted(index);
        }
      }
    }

    method StopIfWanted(index: nat)
      requires Valid() && index < |cfg.controls| && cfg.controls[index].binding.Pwm?
      modifies this`model, env, outputs.Values
      ensures Valid()
      ensures ControlModel.StopOutputs(cfg, model, index + 1) == ControlModel.StopOutputs(cfg, old(model), index)
    {
      hide PutChannel, Attempt, HardwareShown, Fitted;
      var b := cfg.controls[index].binding;
      OutputIs(index);
      if b.offOnExit && outputs[b.pwm].open {
        StopOutput(b.pwm);
      }
    }

    method HoldAll(order: seq<ChipKey>)
      requires Valid()
      modifies this`model, env, chips.Values
      ensures Valid() && model == ControlModel.HoldAll(cfg, old(model), order)
    {
      hide HoldInReset, Fitted, PutRig;
      for i := 0 to |order|
        invariant Valid()
        invariant ControlModel.HoldAll(cfg, model, order[i..]) == ControlModel.HoldAll(cfg, old(model), order)
      {
        assert order[i..][1..] == order[i + 1..];
        if order[i] in chips {
          HoldChip(order[i]);
        }
      }
    }

    method ShutDown(order: seq<ChipKey>)
      requires Valid()
      modifies this, env, chips.Values, outputs.Values
      ensures Valid() && model == ControlModel.ShutDown(cfg, old(model), order)
      ensures chips == old(chips) && outputs == old(outputs)
    {
      hide ControlModel.HoldAll, ControlModel.StopOutputs, HardwareShown, Fitted;
      shuttingDown := true;
      Adopt(model.(shuttingDown := true));
      StopOutputs();
      HoldAll(order);
    }
  }
}
