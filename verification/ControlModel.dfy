/** The control hub of `src/backend/src/controls.rs` on values: switches and
    sliders, the port expanders and PWM channels behind them, and the devices
    on the other end of the bus, which may fail, forget their setup or be held
    in reset.

    A 16-bit register of the MCP23017 is the set of its bits that are 1; a
    direction register with a bit set means that this pin is an input. Every
    call that can fail is answered by `Config.answers` at the running number
    of the call, so a statement about all configurations is one about all
    patterns of failures. */
module ControlModel {

  datatype Kind = Switch | Slider

  datatype Value = On(on: bool) | Level(level: nat)

  datatype ChipKey = ChipKey(bus: string, address: nat)

  datatype PwmKey = PwmKey(chip: string, channel: nat)

  datatype Binding =
    | Demo
    | Mcp23017(chip: ChipKey, pin: nat, hasReset: bool)
    | Pwm(pwm: PwmKey, periodNs: nat, minLevel: nat, kick: bool, offAtZero: bool, offOnExit: bool)

  datatype Control = Control(id: string, kind: Kind, restore: bool, binding: Binding, hidden: bool, boost: bool)

  datatype ControlState = ControlState(id: string, value: Value, available: bool)

  datatype SetError = NotFound | InvalidValue | Unavailable

  datatype SetResult = Done(state: ControlState) | Refused(error: SetError)

  const LEVEL_MAX: nat := 100

  const ALL_PINS: set<nat> := set p: nat | p < 16

  /** `saving`: a database path is configured. */
  datatype Config = Config(controls: seq<Control>, saving: bool, answers: nat -> bool)

  // ---------------------------------------------------------------- hardware

  /** How many calls were made so far, and how many of them failed. */
  datatype Calls = Calls(clock: nat, failed: nat)

  /** The driver's picture of one MCP23017. */
  datatype Chip = Chip(usedPins: set<nat>, latch: set<nat>, available: bool, busOpen: bool,
                       hasReset: bool, lineHeld: bool)

  /** The MCP23017 itself. */
  datatype Device = Device(inputs: set<nat>, latch: set<nat>, inReset: bool)

  /** A chip, its device and the calls made, while a driver routine runs. */
  datatype Rig = Rig(chip: Chip, dev: Device, calls: Calls)

  datatype Output = Output(available: bool, open: bool)

  /** What a PWM channel puts out. */
  datatype Fan = Fan(periodNs: nat, dutyNs: nat, enabled: bool)

  datatype Channel = Channel(out: Output, fan: Fan, calls: Calls)

  /** One call: it succeeds when it can and the environment answers it. */
  function Attempt(calls: Calls, answers: nat -> bool, possible: bool): (r: (Calls, bool))
    ensures r.0.failed == calls.failed + (if r.1 then 0 else 1)
    ensures r.1 ==> possible
  {
    var ok := possible && answers(calls.clock);
    (Calls(calls.clock + 1, if ok then calls.failed else calls.failed + 1), ok)
  }

  /** All inputs, latch 0: after a reset or a lost supply. */
  function Cleared(dev: Device): Device {
    dev.(inputs := ALL_PINS, latch := {})
  }

  function OpenBus(rig: Rig, answers: nat -> bool): (r: (Rig, bool))
    ensures r.0 == rig.(chip := rig.chip.(busOpen := r.0.chip.busOpen), calls := r.0.calls)
    ensures rig.calls.failed <= r.0.calls.failed
    ensures r.1 <==> r.0.calls.failed == rig.calls.failed
  {
    if rig.chip.busOpen then (rig, true) else
      var (calls, ok) := Attempt(rig.calls, answers, true);
      (rig.(calls := calls, chip := rig.chip.(busOpen := ok)), ok)
  }

  /** Requests the reset line (already high) the first time, pulses it low
      after that. */
  function ReleaseReset(rig: Rig, answers: nat -> bool): (r: (Rig, bool))
    ensures r.0.chip == rig.chip.(lineHeld := r.0.chip.lineHeld)
    ensures rig.calls.failed <= r.0.calls.failed
    ensures r.1 <==> r.0.calls.failed == rig.calls.failed
    ensures r.1 && rig.chip.hasReset ==> !r.0.dev.inReset && r.0.chip.lineHeld
  {
    if !rig.chip.hasReset then (rig, true)
    else if !rig.chip.lineHeld then
      var (calls, ok) := Attempt(rig.calls, answers, true);
      (Rig(rig.chip.(lineHeld := ok), if ok then rig.dev.(inReset := false) else rig.dev, calls), ok)
    else
      var (calls, low) := Attempt(rig.calls, answers, true);
      if !low then (rig.(calls := calls), false) else
        var (calls', high) := Attempt(calls, answers, true);
        (Rig(rig.chip, Cleared(rig.dev).(inReset := !high), calls'), high)
  }

  /** A register write; a device in reset does not answer. */
  function WriteOlat(rig: Rig, answers: nat -> bool): (r: (Rig, bool))
    ensures rig.calls.failed <= r.0.calls.failed
    ensures r.1 <==> r.0.calls.failed == rig.calls.failed
  {
    var (calls, ok) := Attempt(rig.calls, answers, !rig.dev.inReset);
    (rig.(calls := calls, dev := if ok then rig.dev.(latch := rig.chip.latch) else rig.dev), ok)
  }

  function WriteIodir(rig: Rig, answers: nat -> bool): (r: (Rig, bool))
    ensures rig.calls.failed <= r.0.calls.failed
    ensures r.1 <==> r.0.calls.failed == rig.calls.failed
  {
    var (calls, ok) := Attempt(rig.calls, answers, !rig.dev.inReset);
    (rig.(calls := calls, dev := if ok then rig.dev.(inputs := ALL_PINS - rig.chip.usedPins) else rig.dev), ok)
  }

  function WriteLatch(rig: Rig, answers: nat -> bool): (r: (Rig, bool))
    ensures rig.calls.failed <= r.0.calls.failed
    ensures r.1 <==> r.0.calls.failed == rig.calls.failed
  {
    var (ready, ok) := OpenBus(rig, answers);
    if !ok then (ready, false) else WriteOlat(ready, answers)
  }

  /** Latch first, then the direction. */
  function Initialise(rig: Rig, answers: nat -> bool): (r: (Rig, bool))
    ensures rig.calls.failed <= r.0.calls.failed
    ensures r.1 <==> r.0.calls.failed == rig.calls.failed
  {
    var (released, ok) := ReleaseReset(rig, answers);
    if !ok then (released, false) else
      var (ready, ok) := OpenBus(released, answers);
      if !ok then (ready, false) else
        var (latched, ok) := WriteOlat(ready, answers);
        if !ok then (latched, false) else WriteIodir(latched, answers)
  }

  datatype SetupCheck = Holds | Lost | NoAnswer

  function HoldsSetup(rig: Rig, answers: nat -> bool): (r: (Rig, SetupCheck))
    ensures rig.calls.failed <= r.0.calls.failed
    ensures r.1.NoAnswer? <==> r.0.calls.failed > rig.calls.failed
  {
    var (ready, ok) := OpenBus(rig, answers);
    if !ok then (ready, NoAnswer) else
      var (calls, ok) := Attempt(ready.calls, answers, !ready.dev.inReset);
      (ready.(calls := calls),
       if !ok then NoAnswer
       else if ready.dev.inputs == ALL_PINS - ready.chip.usedPins then Holds else Lost)
  }

  function GoneAway(chip: Chip): Chip {
    chip.(available := false, busOpen := false)
  }

  function BringUp(rig: Rig, answers: nat -> bool): (r: Rig)
    ensures rig.calls.failed <= r.calls.failed
    ensures r.chip.available <==> r.calls.failed == rig.calls.failed
  {
    var (done, ok) := Initialise(rig, answers);
    done.(chip := if ok then done.chip.(available := true) else GoneAway(done.chip))
  }

  function CheckSetup(rig: Rig, answers: nat -> bool): (r: Rig)
    ensures rig.calls.failed <= r.calls.failed
    ensures rig.chip.available ==> (r.chip.available <==> r.calls.failed == rig.calls.failed)
  {
    var (checked, found) := HoldsSetup(rig, answers);
    match found
    case Holds => checked
    case Lost =>
      var (done, ok) := Initialise(checked, answers);
      if ok then done else done.(chip := GoneAway(done.chip))
    case NoAnswer => checked.(chip := GoneAway(checked.chip))
  }

  /** The latch with the bit of `pin` set for on, cleared for everything else. */
  function Moved(latch: set<nat>, pin: nat, value: Value): set<nat> {
    if value == On(true) then latch + {pin} else latch - {pin}
  }

  /** The chip's part of `put_on_hardware`. */
  function SwitchPin(rig: Rig, answers: nat -> bool, pin: nat, value: Value): (r: (Rig, bool))
    ensures r.0.chip.available == r.1
    ensures rig.calls.failed <= r.0.calls.failed
    ensures r.1 <==> r.0.calls.failed == rig.calls.failed
  {
    var previous := rig.chip.latch;
    var wanted := rig.(chip := rig.chip.(latch := Moved(previous, pin, value)));
    var (done, ok) := if wanted.chip.available then WriteLatch(wanted, answers) else Initialise(wanted, answers);
    if ok then (done.(chip := done.chip.(available := true)), true)
    else (done.(chip := GoneAway(done.chip).(latch := previous)), false)
  }

  function HoldInReset(rig: Rig, answers: nat -> bool): (r: Rig)
    ensures rig.calls.failed <= r.calls.failed
  {
    if !rig.chip.lineHeld then rig else
      var (calls, ok) := Attempt(rig.calls, answers, true);
      rig.(calls := calls, dev := if ok then Cleared(rig.dev).(inReset := true) else rig.dev)
  }

  function PwmDutyNs(value: Value, periodNs: nat, minLevel: nat, offAtZero: bool): nat
    requires minLevel <= LEVEL_MAX
  {
    var percent := if value.On? then (if value.on then LEVEL_MAX else 0) else Percent(value.level, minLevel, offAtZero);
    Share(periodNs, percent)
  }

  function Percent(level: nat, minLevel: nat, offAtZero: bool): nat
    requires minLevel <= LEVEL_MAX
  {
    if level == 0 && offAtZero then 0 else minLevel + Share(LEVEL_MAX - minLevel, Capped(level))
  }

  function Capped(level: nat): nat { if level < LEVEL_MAX then level else LEVEL_MAX }

  function Share(whole: nat, percent: nat): nat { whole * percent / LEVEL_MAX }

  function DutyOf(b: Binding, value: Value): nat
    requires b.Pwm? && b.minLevel <= LEVEL_MAX
  {
    PwmDutyNs(value, b.periodNs, b.minLevel, b.offAtZero)
  }

  /** `drive_pwm` on its channel: open if needed, a kick at full duty when
      starting from off, then the duty. */
  function DriveChannel(ch: Channel, answers: nat -> bool, b: Binding, previous: Value, value: Value): (r: (Channel, bool))
    requires b.Pwm? && b.minLevel <= LEVEL_MAX
    ensures ch.calls.failed <= r.0.calls.failed
    ensures r.1 <==> r.0.calls.failed == ch.calls.failed
    ensures r.1 <==> r.0.out.available
  {
    var gone := Output(false, false);
    var (calls, open) := if ch.out.open then (ch.calls, true) else Attempt(ch.calls, answers, true);
    if !open then (Channel(gone, ch.fan, calls), false) else
      var kicks := DutyOf(b, value) > 0 && (!ch.out.available || DutyOf(b, previous) == 0) && b.kick;
      var (calls, kicked) := if kicks then Attempt(calls, answers, true) else (calls, true);
      var fan := if kicks && kicked then Fan(b.periodNs, b.periodNs, true) else ch.fan;
      if !kicked then (Channel(gone, fan, calls), false) else
        var (calls, applied) := Attempt(calls, answers, true);
        if applied then (Channel(Output(true, true), Fan(b.periodNs, DutyOf(b, value), true), calls), true)
        else (Channel(gone, fan, calls), false)
  }

  // --------------------------------------------------------------------- hub

  datatype World = World(devices: map<ChipKey, Device>, fans: map<PwmKey, Fan>, calls: Calls)

  datatype Hub = Hub(states: seq<ControlState>, chips: map<ChipKey, Chip>, outputs: map<PwmKey, Output>,
                     boosting: bool, normal: map<string, Value>, shuttingDown: bool,
                     saved: map<string, Value>, sent: seq<ControlState>, world: World)

  /** No id is used twice; `with_pwm` skips such entries. */
  ghost predicate UniqueIds(controls: seq<Control>) {
    forall i, j :: 0 <= i < j < |controls| ==> controls[i].id != controls[j].id
  }

  /** What an entry looks like after the checks of `from_config`. */
  predicate ValidControl(c: Control) {
    match c.binding
    case Demo => true
    case Mcp23017(_, pin, _) => c.kind == Switch && pin < 16
    case Pwm(_, periodNs, minLevel, _, _, _) => 1000 <= periodNs && minLevel <= LEVEL_MAX
  }

  /** A checked control that finds its chip or channel. */
  predicate Fitted(c: Control, id: string, chips: set<ChipKey>, outputs: set<PwmKey>) {
    && c.id == id
    && ValidControl(c)
    && (c.binding.Mcp23017? ==> c.binding.chip in chips)
    && (c.binding.Pwm? ==> c.binding.pwm in outputs)
  }

  /** Every control is fitted and has its state beside it. */
  ghost predicate Wired(cfg: Config, h: Hub) {
    && |h.states| == |cfg.controls|
    && h.chips.Keys == h.world.devices.Keys
    && h.outputs.Keys == h.world.fans.Keys
    && forall i :: 0 <= i < |cfg.controls| ==> Fitted(cfg.controls[i], h.states[i].id, h.chips.Keys, h.outputs.Keys)
  }

  function RigAt(h: Hub, key: ChipKey): Rig
    requires key in h.chips && key in h.world.devices
  {
    Rig(h.chips[key], h.world.devices[key], h.world.calls)
  }

  function PutRig(h: Hub, key: ChipKey, rig: Rig): (r: Hub)
    ensures r == h.(chips := r.chips, world := h.world.(devices := r.world.devices, calls := rig.calls))
    ensures key in h.chips ==> r.chips.Keys == h.chips.Keys
    ensures key in h.world.devices ==> r.world.devices.Keys == h.world.devices.Keys
  {
    h.(chips := h.chips[key := rig.chip],
       world := h.world.(devices := h.world.devices[key := rig.dev], calls := rig.calls))
  }

  function ChannelAt(h: Hub, key: PwmKey): Channel
    requires key in h.outputs && key in h.world.fans
  {
    Channel(h.outputs[key], h.world.fans[key], h.world.calls)
  }

  function PutChannel(h: Hub, key: PwmKey, ch: Channel): (r: Hub)
    ensures r == h.(outputs := r.outputs, world := h.world.(fans := r.world.fans, calls := ch.calls))
    ensures key in h.outputs ==> r.outputs.Keys == h.outputs.Keys
    ensures key in h.world.fans ==> r.world.fans.Keys == h.world.fans.Keys
  {
    h.(outputs := h.outputs[key := ch.out],
       world := h.world.(fans := h.world.fans[key := ch.fan], calls := ch.calls))
  }

  /** At most chips and their devices differ, and no failure is forgotten. */
  predicate OnlyChips(h: Hub, r: Hub) {
    && r == h.(chips := r.chips, world := h.world.(devices := r.world.devices, calls := r.world.calls))
    && r.chips.Keys == h.chips.Keys
    && h.world.calls.failed <= r.world.calls.failed
  }

  /** At most PWM outputs and their channels differ. */
  predicate OnlyOutputs(h: Hub, r: Hub) {
    && r == h.(outputs := r.outputs, world := h.world.(fans := r.world.fans, calls := r.world.calls))
    && r.outputs.Keys == h.outputs.Keys
    && h.world.calls.failed <= r.world.calls.failed
  }

  /** `off_value`: the backlight (hidden) starts bright. */
  function OffValue(c: Control): Value {
    match c.kind
    case Switch => On(false)
    case Slider => Level(if c.hidden then LEVEL_MAX else 0)
  }

  function FullValue(kind: Kind): Value {
    match kind
    case Switch => On(true)
    case Slider => Level(LEVEL_MAX)
  }

  predicate Reachable(c: Control, h: Hub) {
    match c.binding
    case Demo => true
    case Mcp23017(key, _, _) => key in h.chips && h.chips[key].available
    case Pwm(key, _, _, _, _, _) => key in h.outputs && h.outputs[key].available
  }

  function Refreshed(cfg: Config, h: Hub): (r: seq<ControlState>)
    requires |h.states| == |cfg.controls|
  {
    seq(|h.states|, i requires 0 <= i < |h.states| => h.states[i].(available := Reachable(cfg.controls[i], h)))
  }

  /** The entries of `after` among the first `n` that differ from `before`. */
  function Changes(before: seq<ControlState>, after: seq<ControlState>, n: nat): (r: seq<ControlState>)
    requires n <= |before| == |after|
  {
    if n == 0 then [] else
      Changes(before, after, n - 1) + (if before[n - 1] != after[n - 1] then [after[n - 1]] else [])
  }

  function Others(changes: seq<ControlState>, id: string): (r: seq<ControlState>) {
    if changes == [] then [] else
      (if changes[0].id != id then [changes[0]] else []) + Others(changes[1..], id)
  }

  /** Refreshes the availability and announces every change, except that of
      the control `except` when one is given. */
  function RefreshAndSend(cfg: Config, h: Hub, all: bool, except: string): (r: Hub)
    requires Wired(cfg, h)
    ensures Wired(cfg, r) && r == h.(states := r.states, sent := r.sent)
  {
    var after := Refreshed(cfg, h);
    var changes := Changes(h.states, after, |after|);
    h.(states := after, sent := h.sent + (if all then changes else Others(changes, except)))
  }

  /** The chip or channel of a control given a value. */
  function Touch(cfg: Config, h: Hub, index: nat, value: Value): (r: (Hub, bool))
    requires Wired(cfg, h) && index < |cfg.controls| && !cfg.controls[index].binding.Demo?
    ensures Wired(cfg, r.0) && r.0 == h.(chips := r.0.chips, outputs := r.0.outputs, world := r.0.world)
    ensures r.0.chips.Keys == h.chips.Keys && r.0.outputs.Keys == h.outputs.Keys
    ensures h.world.calls.failed <= r.0.world.calls.failed
    ensures r.1 <==> r.0.world.calls.failed == h.world.calls.failed
  {
    var b := cfg.controls[index].binding;
    if b.Mcp23017? then
      var done := SwitchPin(RigAt(h, b.chip), cfg.answers, b.pin, value);
      (PutRig(h, b.chip, done.0), done.1)
    else
      var done := DriveChannel(ChannelAt(h, b.pwm), cfg.answers, b, h.states[index].value, value);
      (PutChannel(h, b.pwm, done.0), done.1)
  }

  /** `put_on_hardware`. */
  function PutOnHardware(cfg: Config, h: Hub, index: nat, value: Value): (r: (Hub, bool))
    requires Wired(cfg, h) && index < |cfg.controls|
    ensures Wired(cfg, r.0) && r.0.chips.Keys == h.chips.Keys && r.0.outputs.Keys == h.outputs.Keys
  {
    if cfg.controls[index].binding.Demo? then (h, true) else
      var touched := Touch(cfg, h, index, value);
      (RefreshAndSend(cfg, touched.0, !touched.1, cfg.controls[index].id), touched.1)
  }

  /** The index of the control with this id, or the number of controls. */
  function IndexOf(controls: seq<Control>, id: string): (r: nat)
    ensures r <= |controls|
    ensures r < |controls| ==> controls[r].id == id
    ensures forall i :: 0 <= i < r ==> controls[i].id != id
  {
    if controls == [] || controls[0].id == id then 0 else 1 + IndexOf(controls[1..], id)
  }

  predicate Fits(kind: Kind, value: Value) {
    match kind
    case Switch => value.On?
    case Slider => value.Level? && value.level <= LEVEL_MAX
  }

  function Save(cfg: Config, h: Hub, id: string, value: Value): Hub {
    if cfg.saving then h.(saved := h.saved[id := value]) else h
  }

  /** A boosted control stays at full; its own value is kept for afterwards. */
  function KeepForLater(cfg: Config, h: Hub, index: nat, value: Value): (r: Hub)
    requires Wired(cfg, h) && index < |cfg.controls|
    ensures Wired(cfg, r)
  {
    var id := cfg.controls[index].id;
    Save(cfg, h.(normal := h.normal[id := value], sent := h.sent + [h.states[index]]), id, value)
  }

  /** The new state of a control whose hardware took the value. */
  function Record(cfg: Config, h: Hub, index: nat, value: Value): (r: Hub)
    requires Wired(cfg, h) && index < |cfg.controls|
    ensures Wired(cfg, r)
  {
    var id := cfg.controls[index].id;
    var state := ControlState(id, value, true);
    Save(cfg, h.(states := h.states[index := state], sent := h.sent + [state]), id, value)
  }

  /** `ControlHub::set`. */
  function Set(cfg: Config, h: Hub, id: string, value: Value): (r: (Hub, SetResult))
    requires Wired(cfg, h)
    ensures Wired(cfg, r.0)
  {
    if h.shuttingDown then (h, Refused(Unavailable)) else
      var index := IndexOf(cfg.controls, id);
      if index == |cfg.controls| then (h, Refused(NotFound))
      else if !Fits(cfg.controls[index].kind, value) then (h, Refused(InvalidValue))
      else if h.boosting && cfg.controls[index].boost then
        (KeepForLater(cfg, h, index, value), Done(h.states[index]))
      else
        var put := PutOnHardware(cfg, h, index, value);
        if put.1 then (Record(cfg, put.0, index, value), Done(ControlState(id, value, true)))
        else (put.0, Refused(Unavailable))
  }

  /** The state of a control that follows the CPU temperature. */
  function Show(cfg: Config, h: Hub, index: nat, value: Value): (r: Hub)
    requires Wired(cfg, h) && index < |cfg.controls|
    ensures Wired(cfg, r)
  {
    var state := h.states[index].(value := value);
    h.(states := h.states[index := state], sent := h.sent + [state])
  }

  /** Where a boosted control goes. */
  function Target(cfg: Config, h: Hub, index: nat, overheated: bool): Value
    requires index < |cfg.controls| == |h.states|
  {
    var control := cfg.controls[index];
    if overheated then FullValue(control.kind)
    else if control.id in h.normal then h.normal[control.id] else h.states[index].value
  }

  /** Its own value, put aside or taken out again. */
  function SetAside(cfg: Config, h: Hub, index: nat, overheated: bool): Hub
    requires index < |cfg.controls| == |h.states|
  {
    var id := cfg.controls[index].id;
    h.(normal := if overheated then h.normal[id := h.states[index].value] else h.normal - {id})
  }

  /** One round of the loop in `set_overheated`. */
  function Follow(cfg: Config, h: Hub, index: nat, overheated: bool): (r: Hub)
    requires Wired(cfg, h) && index < |cfg.controls|
    ensures Wired(cfg, r)
  {
    if !cfg.controls[index].boost then h else
      var target := Target(cfg, h, index, overheated);
      var put := PutOnHardware(cfg, SetAside(cfg, h, index, overheated), index, target);
      if put.1 then Show(cfg, put.0, index, target) else put.0
  }

  function FollowFrom(cfg: Config, h: Hub, index: nat, overheated: bool): (r: Hub)
    requires Wired(cfg, h) && index <= |cfg.controls|
    ensures Wired(cfg, r)
    decreases |cfg.controls| - index
  {
    if index == |cfg.controls| then h else
      FollowFrom(cfg, Follow(cfg, h, index, overheated), index + 1, overheated)
  }

  /** `ControlHub::set_overheated`. */
  function SetOverheated(cfg: Config, h: Hub, overheated: bool): (r: Hub)
    requires Wired(cfg, h)
    ensures Wired(cfg, r)
  {
    if h.shuttingDown || h.boosting == overheated then h
    else FollowFrom(cfg, h.(boosting := overheated), 0, overheated)
  }

  /** The chips in `order` that answer: do they still hold their setup? */
  function CheckAll(cfg: Config, h: Hub, order: seq<ChipKey>): (r: Hub)
    requires Wired(cfg, h)
    ensures Wired(cfg, r) && OnlyChips(h, r)
    decreases |order|
  {
    if order == [] then h
    else if order[0] in h.chips && h.chips[order[0]].available then
      CheckAll(cfg, PutRig(h, order[0], CheckSetup(RigAt(h, order[0]), cfg.answers)), order[1..])
    else CheckAll(cfg, h, order[1..])
  }

  /** The chips in `order` that do not answer are tried again. */
  function BringUpAll(cfg: Config, h: Hub, order: seq<ChipKey>): (r: Hub)
    requires Wired(cfg, h)
    ensures Wired(cfg, r) && OnlyChips(h, r)
    decreases |order|
  {
    if order == [] then h
    else if order[0] in h.chips && !h.chips[order[0]].available then
      BringUpAll(cfg, PutRig(h, order[0], BringUp(RigAt(h, order[0]), cfg.answers)), order[1..])
    else BringUpAll(cfg, h, order[1..])
  }

  function BringUpPwm(cfg: Config, h: Hub, index: nat): (r: Hub)
    requires Wired(cfg, h) && index <= |cfg.controls|
    ensures Wired(cfg, r) && OnlyOutputs(h, r)
    decreases |cfg.controls| - index
  {
    if index == |cfg.controls| then h else
      var b := cfg.controls[index].binding;
      if b.Pwm? && !h.outputs[b.pwm].available then
        var ch := DriveChannel(ChannelAt(h, b.pwm), cfg.answers, b, OffValue(cfg.controls[index]), h.states[index].value).0;
        BringUpPwm(cfg, PutChannel(h, b.pwm, ch), index + 1)
      else BringUpPwm(cfg, h, index + 1)
  }

  /** `ControlHub::retry_unavailable`; `order` is the order in which the
      hash map hands out its chips. */
  function Retry(cfg: Config, h: Hub, order: seq<ChipKey>): (r: Hub)
    requires Wired(cfg, h)
    ensures Wired(cfg, r)
  {
    if h.shuttingDown then h else
      RefreshAndSend(cfg, BringUpPwm(cfg, BringUpAll(cfg, CheckAll(cfg, h, order), order), 0), true, "")
  }

  /** Stops the PWM outputs that go off on exit, from control `index` on. */
  function StopOutputs(cfg: Config, h: Hub, index: nat): (r: Hub)
    requires Wired(cfg, h) && index <= |cfg.controls|
    ensures Wired(cfg, r) && OnlyOutputs(h, r)
    decreases |cfg.controls| - index
  {
    if index == |cfg.controls| then h else
      var b := cfg.controls[index].binding;
      if b.Pwm? && b.offOnExit && h.outputs[b.pwm].open then
        var ch := ChannelAt(h, b.pwm);
        var (calls, ok) := Attempt(ch.calls, cfg.answers, true);
        StopOutputs(cfg, PutChannel(h, b.pwm, ch.(calls := calls, fan := ch.fan.(enabled := ch.fan.enabled && !ok))), index + 1)
      else StopOutputs(cfg, h, index + 1)
  }

  function HoldAll(cfg: Config, h: Hub, order: seq<ChipKey>): (r: Hub)
    requires Wired(cfg, h)
    ensures Wired(cfg, r) && OnlyChips(h, r)
    decreases |order|
  {
    if order == [] then h
    else if order[0] in h.chips then
      HoldAll(cfg, PutRig(h, order[0], HoldInReset(RigAt(h, order[0]), cfg.answers)), order[1..])
    else HoldAll(cfg, h, order[1..])
  }

  /** `ControlHub::shut_down`. */
  function ShutDown(cfg: Config, h: Hub, order: seq<ChipKey>): (r: Hub)
    requires Wired(cfg, h)
    ensures Wired(cfg, r)
  {
    HoldAll(cfg, StopOutputs(cfg, h.(shuttingDown := true), 0), order)
  }

  // ------------------------------------------------------------------- start

  /** Controls with an id used before are skipped. */
  function Distinct(controls: seq<Control>): (r: seq<Control>)
    ensures UniqueIds(r)
    ensures forall c :: c in r ==> c in controls
  {
    if controls == [] then [] else
      var known := Distinct(controls[..|controls| - 1]);
      var last := controls[|controls| - 1];
      if exists k :: 0 <= k < |known| && known[k].id == last.id then known else known + [last]
  }

  function StartValue(c: Control, saved: map<string, Value>): Value {
    if c.restore && c.id in saved && (saved[c.id].On? <==> c.kind == Switch) then
      match saved[c.id]
      case On(on) => On(on)
      case Level(level) => Level(if level < LEVEL_MAX then level else LEVEL_MAX)
    else OffValue(c)
  }

  function ChipKeys(controls: seq<Control>): set<ChipKey> {
    set i | 0 <= i < |controls| && controls[i].binding.Mcp23017? :: controls[i].binding.chip
  }

  function PwmKeys(controls: seq<Control>): set<PwmKey> {
    set i | 0 <= i < |controls| && controls[i].binding.Pwm? :: controls[i].binding.pwm
  }

  function PinsOf(controls: seq<Control>, key: ChipKey): set<nat> {
    set i | 0 <= i < |controls| && controls[i].binding.Mcp23017? && controls[i].binding.chip == key :: controls[i].binding.pin
  }

  /** The pins of one chip whose controls are on. */
  function PinsOn(controls: seq<Control>, states: seq<ControlState>, key: ChipKey): set<nat>
    requires |states| == |controls|
  {
    set i | 0 <= i < |controls| && controls[i].binding.Mcp23017? && controls[i].binding.chip == key
            && states[i].value == On(true) :: controls[i].binding.pin
  }

  /** The first control of a chip says whether a GPIO holds its reset. */
  function ResetOf(controls: seq<Control>, key: ChipKey): bool {
    if controls == [] then false
    else if controls[0].binding.Mcp23017? && controls[0].binding.chip == key then controls[0].binding.hasReset
    else ResetOf(controls[1..], key)
  }

  function StartStates(controls: seq<Control>, saved: map<string, Value>): (r: seq<ControlState>)
    ensures |r| == |controls|
  {
    seq(|controls|, i requires 0 <= i < |controls| =>
      ControlState(controls[i].id, StartValue(controls[i], saved), true))
  }

  /** Devices and channels exist for every chip and output named. */
  ghost predicate WorldFor(cfg: Config, world: World) {
    && (forall i :: 0 <= i < |cfg.controls| ==> ValidControl(cfg.controls[i]))
    && world.devices.Keys == ChipKeys(cfg.controls)
    && world.fans.Keys == PwmKeys(cfg.controls)
  }

  /** The hub of `with_pwm` before it talks to any chip. */
  function Assembled(cfg: Config, saved: map<string, Value>, world: World): (r: Hub)
    requires WorldFor(cfg, world)
    ensures Wired(cfg, r)
  {
    var states := StartStates(cfg.controls, saved);
    Hub(states,
        map key | key in ChipKeys(cfg.controls) ::
          Chip(PinsOf(cfg.controls, key), PinsOn(cfg.controls, states, key), false, false, ResetOf(cfg.controls, key), false),
        map key | key in PwmKeys(cfg.controls) :: Output(false, false),
        false, map[], false, saved, [], world)
  }

  function Start(cfg: Config, saved: map<string, Value>, world: World, order: seq<ChipKey>): (r: Hub)
    requires WorldFor(cfg, world)
    ensures Wired(cfg, r)
  {
    var h := Assembled(cfg, saved, world);
    var up := BringUpPwm(cfg, BringUpAll(cfg, h, order), 0);
    up.(states := Refreshed(cfg, up))
  }

  // -------------------------------------------------------------------- runs

  datatype Op =
    | SetOp(id: string, value: Value)
    | OverheatOp(overheated: bool)
    | RetryOp(order: seq<ChipKey>)
    | ShutDownOp(order: seq<ChipKey>)
    | ForgetOp(chip: ChipKey)   // the device loses its supply for a moment

  function Forget(h: Hub, key: ChipKey): Hub {
    if key !in h.world.devices then h else
      h.(world := h.world.(devices := h.world.devices[key := Cleared(h.world.devices[key])]))
  }

  function Step(cfg: Config, h: Hub, op: Op): (r: Hub)
    requires Wired(cfg, h)
    ensures Wired(cfg, r)
  {
    match op
    case SetOp(id, value) => Set(cfg, h, id, value).0
    case OverheatOp(overheated) => SetOverheated(cfg, h, overheated)
    case RetryOp(order) => Retry(cfg, h, order)
    case ShutDownOp(order) => ShutDown(cfg, h, order)
    case ForgetOp(key) => Forget(h, key)
  }

  function Run(cfg: Config, h: Hub, ops: seq<Op>): (r: Hub)
    requires Wired(cfg, h)
    ensures Wired(cfg, r)
  {
    if ops == [] then h else Step(cfg, Run(cfg, h, ops[..|ops| - 1]), ops[|ops| - 1])
  }
}
