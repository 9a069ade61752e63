/** What every run keeps between the hub's picture of the hardware and the
    hardware itself. */
module ControlDevices {
  import opened ControlModel

  // -------------------------------------------------------------- invariants

  /** Two controls never share a pin. */
  ghost predicate DistinctPins(controls: seq<Control>) {
    forall i, j :: 0 <= i < j < |controls| && controls[i].binding.Mcp23017? && controls[j].binding.Mcp23017?
                   && controls[i].binding.chip == controls[j].binding.chip
                   ==> controls[i].binding.pin != controls[j].binding.pin
  }

  ghost predicate DistinctChannels(controls: seq<Control>) {
    forall i, j :: 0 <= i < j < |controls| && controls[i].binding.Pwm? && controls[j].binding.Pwm?
                   ==> controls[i].binding.pwm != controls[j].binding.pwm
  }

  /** Outputs exactly where pins are configured, at the driver's latch. */
  predicate Driven(chip: Chip, dev: Device) {
    !dev.inReset && dev.inputs == ALL_PINS - chip.usedPins && dev.latch == chip.latch
  }

  /** An answering chip drives what the driver thinks, or nothing at all; if a
      GPIO holds its reset, that line was requested. */
  predicate Faithful(chip: Chip, dev: Device) {
    chip.available ==>
      && (chip.hasReset ==> chip.lineHeld)
      && (dev.inputs == ALL_PINS || (dev.inputs == ALL_PINS - chip.usedPins && dev.latch == chip.latch))
  }

  predicate WellUsed(chip: Chip) {
    chip.usedPins != {} && chip.usedPins <= ALL_PINS
  }

  ghost predicate ChipsFaithful(h: Hub)
    requires h.chips.Keys == h.world.devices.Keys
  {
    forall key :: key in h.chips ==> WellUsed(h.chips[key]) && Faithful(h.chips[key], h.world.devices[key])
  }

  /** The latch of every chip is the set of pins whose switches are on. */
  ghost predicate LatchesShowStates(cfg: Config, h: Hub)
    requires |h.states| == |cfg.controls|
  {
    forall key :: key in h.chips ==> h.chips[key].latch == PinsOn(cfg.controls, h.states, key)
  }

  ghost predicate PinsConfigured(cfg: Config, h: Hub) {
    forall key :: key in h.chips ==> h.chips[key].usedPins == PinsOf(cfg.controls, key)
  }

  /** A state says available exactly when its hardware answers. */
  ghost predicate AvailabilityExact(cfg: Config, h: Hub)
    requires |h.states| == |cfg.controls|
  {
    forall i :: 0 <= i < |h.states| ==> h.states[i].available == Reachable(cfg.controls[i], h)
  }

  // ------------------------------------------------------------ one chip

  lemma InitialiseDrives(rig: Rig, answers: nat -> bool)
    ensures var (r, ok) := Initialise(rig, answers);
      && r.chip == rig.chip.(busOpen := r.chip.busOpen, lineHeld := r.chip.lineHeld)
      && (ok ==> Driven(r.chip, r.dev) && forall p: nat :: p in r.dev.inputs <==> p < 16 && p !in r.chip.usedPins)
  {
  }

  /** A read-back that finds the configured directions has found a chip that
      still drives its latch: losing the setup loses both. */
  lemma CheckSetupKeepsFaith(rig: Rig, answers: nat -> bool)
    requires WellUsed(rig.chip) && Faithful(rig.chip, rig.dev)
    ensures var r := CheckSetup(rig, answers);
      && r.chip == rig.chip.(available := r.chip.available, busOpen := r.chip.busOpen, lineHeld := r.chip.lineHeld)
      && Faithful(r.chip, r.dev)
      && (rig.chip.available && r.chip.available ==> Driven(r.chip, r.dev))
  {
    var checked := HoldsSetup(rig, answers).0;
    InitialiseDrives(checked, answers);
    var pin :| pin in rig.chip.usedPins;
    assert pin in ALL_PINS && pin !in ALL_PINS - rig.chip.usedPins;
  }

  lemma BringUpKeepsFaith(rig: Rig, answers: nat -> bool)
    ensures var r := BringUp(rig, answers);
      && r.chip == rig.chip.(available := r.chip.available, busOpen := r.chip.busOpen, lineHeld := r.chip.lineHeld)
      && (r.chip.available ==> Driven(r.chip, r.dev))
      && Faithful(r.chip, r.dev)
  {
    InitialiseDrives(rig, answers);
  }

  /** A switch that succeeds moves one bit of the latch and leaves the device
      faithful to it; one that fails puts the old latch back. */
  lemma SwitchPinKeepsFaith(rig: Rig, answers: nat -> bool, pin: nat, value: Value)
    requires WellUsed(rig.chip) && Faithful(rig.chip, rig.dev)
    ensures var (r, ok) := SwitchPin(rig, answers, pin, value);
      && r.chip == rig.chip.(latch := r.chip.latch, available := ok, busOpen := r.chip.busOpen, lineHeld := r.chip.lineHeld)
      && r.chip.latch == (if ok then Moved(rig.chip.latch, pin, value) else rig.chip.latch)
      && Faithful(r.chip, r.dev)
  {
    hide Moved;
    InitialiseDrives(rig.(chip := rig.chip.(latch := Moved(rig.chip.latch, pin, value))), answers);
  }

  // ---------------------------------------------------------- whole operations

  /** Refreshing makes availability exact. */
  lemma RefreshEffect(cfg: Config, h: Hub, all: bool, except: string)
    requires Wired(cfg, h)
    ensures AvailabilityExact(cfg, RefreshAndSend(cfg, h, all, except))
  {
  }

  /** What `put_on_hardware` leaves alone, and when it fails. */
  lemma PutOnHardwareEffect(cfg: Config, h: Hub, index: nat, value: Value)
    requires Wired(cfg, h) && index < |cfg.controls|
    ensures var put := PutOnHardware(cfg, h, index, value); Effect(h, put.0, put.1)
  {
    hide Touch, RefreshAndSend, Wired;
    if !cfg.controls[index].binding.Demo? {
      var touched := Touch(cfg, h, index, value);
      RefreshShows(cfg, touched.0, !touched.1, cfg.controls[index].id);
    }
  }

  /** States keep their ids and values; it went well exactly if no call failed. */
  predicate Effect(h: Hub, r: Hub, ok: bool) {
    && r == h.(states := r.states, chips := r.chips, outputs := r.outputs, sent := r.sent, world := r.world)
    && |r.states| == |h.states|
    && (forall i :: 0 <= i < |h.states| ==> r.states[i].id == h.states[i].id && r.states[i].value == h.states[i].value)
    && h.world.calls.failed <= r.world.calls.failed
    && (ok <==> h.world.calls.failed == r.world.calls.failed)
  }

  /** Refreshing touches ids and values of no state. */
  lemma RefreshShows(cfg: Config, h: Hub, all: bool, except: string)
    requires Wired(cfg, h)
    ensures var r := RefreshAndSend(cfg, h, all, except);
      && |r.states| == |h.states|
      && forall i :: 0 <= i < |h.states| ==> r.states[i].id == h.states[i].id && r.states[i].value == h.states[i].value
  {
  }

  /** Afterwards every state says whether its hardware answers. */
  lemma PutOnHardwareAvailability(cfg: Config, h: Hub, index: nat, value: Value)
    requires Wired(cfg, h) && index < |cfg.controls| && AvailabilityExact(cfg, h)
    ensures AvailabilityExact(cfg, PutOnHardware(cfg, h, index, value).0)
  {
    hide Touch, RefreshAndSend, AvailabilityExact, Wired;
    if !cfg.controls[index].binding.Demo? {
      var touched := Touch(cfg, h, index, value);
      RefreshEffect(cfg, touched.0, !touched.1, cfg.controls[index].id);
    }
  }

  /** Hardware that took a value answers. */
  lemma PutOnHardwareReaches(cfg: Config, h: Hub, index: nat, value: Value)
    requires Wired(cfg, h) && index < |cfg.controls|
    ensures var (r, ok) := PutOnHardware(cfg, h, index, value); ok ==> Reachable(cfg.controls[index], r)
  {
    hide SwitchPin, DriveChannel, RefreshAndSend;
  }

  /** `put_on_hardware` touches the chip of its own control only. */
  lemma PutOnHardwareRig(cfg: Config, h: Hub, index: nat, value: Value)
    requires Wired(cfg, h) && index < |cfg.controls|
    ensures var b := cfg.controls[index].binding; var (r, ok) := PutOnHardware(cfg, h, index, value);
      if b.Mcp23017? then
        var (rig, done) := SwitchPin(RigAt(h, b.chip), cfg.answers, b.pin, value);
        && r.chips == h.chips[b.chip := rig.chip]
        && r.world.devices == h.world.devices[b.chip := rig.dev]
        && ok == done
      else r.chips == h.chips && r.world.devices == h.world.devices
  {
    hide SwitchPin, DriveChannel, RefreshAndSend;
  }

  lemma PutOnHardwareKeepsFaith(cfg: Config, h: Hub, index: nat, value: Value)
    requires Wired(cfg, h) && index < |cfg.controls| && ChipsFaithful(h)
    ensures ChipsFaithful(PutOnHardware(cfg, h, index, value).0)
  {
    hide SwitchPin, PutOnHardware, Faithful;
    var b := cfg.controls[index].binding;
    PutOnHardwareRig(cfg, h, index, value);
    if b.Mcp23017? {
      SwitchPinKeepsFaith(RigAt(h, b.chip), cfg.answers, b.pin, value);
    }
  }

  /** The latches after `put_on_hardware`: one bit of one chip, on success. */
  lemma PutOnHardwareLatches(cfg: Config, h: Hub, index: nat, value: Value, key: ChipKey)
    requires Wired(cfg, h) && index < |cfg.controls| && ChipsFaithful(h) && key in h.chips
    ensures var (r, ok) := PutOnHardware(cfg, h, index, value);
      var b := cfg.controls[index].binding;
      && r.chips.Keys == h.chips.Keys
      && r.chips[key].usedPins == h.chips[key].usedPins
      && r.chips[key].latch ==
           if ok && b.Mcp23017? && b.chip == key then Moved(h.chips[key].latch, b.pin, value)
           else h.chips[key].latch
  {
    hide SwitchPin, PutOnHardware, Moved, Faithful, WellUsed;
    var b := cfg.controls[index].binding;
    PutOnHardwareRig(cfg, h, index, value);
    if b.Mcp23017? {
      SwitchPinKeepsFaith(RigAt(h, b.chip), cfg.answers, b.pin, value);
    }
  }

  /** With distinct pins, writing control `index` and recording its value
      keeps every latch equal to the switches; a failure changes neither. */
  lemma PutOnHardwareMovesLatch(cfg: Config, h: Hub, index: nat, value: Value, states: seq<ControlState>)
    requires Wired(cfg, h) && index < |cfg.controls| && DistinctPins(cfg.controls)
    requires ChipsFaithful(h) && LatchesShowStates(cfg, h)
    requires |states| == |h.states|
    requires forall i :: 0 <= i < |states| && i != index ==> states[i].value == h.states[i].value
    requires states[index].value == if PutOnHardware(cfg, h, index, value).1 then value else h.states[index].value
    ensures LatchesShowStates(cfg, PutOnHardware(cfg, h, index, value).0.(states := states))
  {
    hide PutOnHardware, PinsOn, DistinctPins, Moved;
    var (r, ok) := PutOnHardware(cfg, h, index, value);
    forall key | key in r.chips
      ensures r.chips[key].latch == PinsOn(cfg.controls, states, key)
    {
      assert key in h.chips by { PutOnHardwareRig(cfg, h, index, value); }
      PutOnHardwareLatches(cfg, h, index, value, key);
      if ok {
        PinsOnAfter(cfg.controls, h.states, states, index, key);
      } else {
        PinsOnSame(cfg.controls, h.states, states, key);
      }
    }
  }

  lemma PinsOnSame(controls: seq<Control>, before: seq<ControlState>, after: seq<ControlState>, key: ChipKey)
    requires |before| == |after| == |controls|
    requires forall i :: 0 <= i < |after| ==> after[i].value == before[i].value
    ensures PinsOn(controls, after, key) == PinsOn(controls, before, key)
  {
  }

  lemma PinsOnAfter(controls: seq<Control>, before: seq<ControlState>, after: seq<ControlState>, index: nat, key: ChipKey)
    requires |before| == |after| == |controls| && index < |controls| && DistinctPins(controls)
    requires forall i :: 0 <= i < |after| && i != index ==> after[i].value == before[i].value
    ensures PinsOn(controls, after, key) ==
            if !controls[index].binding.Mcp23017? || controls[index].binding.chip != key then PinsOn(controls, before, key)
            else Moved(PinsOn(controls, before, key), controls[index].binding.pin, after[index].value)
  {
    var b := controls[index].binding;
    var was, now := PinsOn(controls, before, key), PinsOn(controls, after, key);
    forall pin | pin in was && !(b.Mcp23017? && b.chip == key && pin == b.pin) ensures pin in now {
      var i :| 0 <= i < |controls| && controls[i].binding.Mcp23017? && controls[i].binding.chip == key
               && before[i].value == On(true) && controls[i].binding.pin == pin;
      assert i != index;
    }
    forall pin | pin in now && !(b.Mcp23017? && b.chip == key && pin == b.pin) ensures pin in was {
      var i :| 0 <= i < |controls| && controls[i].binding.Mcp23017? && controls[i].binding.chip == key
               && after[i].value == On(true) && controls[i].binding.pin == pin;
      assert i != index;
    }
    if b.Mcp23017? && b.chip == key {
      forall i | 0 <= i < |controls| && controls[i].binding.Mcp23017? && controls[i].binding.chip == key
                 && controls[i].binding.pin == b.pin
        ensures i == index
      {
      }
      assert after[index].value == On(true) ==> b.pin in now;
    }
  }

  // ------------------------------------------- loops over chips, key by key

  /** The driver's constants and latch of a chip are untouched. */
  predicate SameSetup(chip: Chip, after: Chip) {
    after.usedPins == chip.usedPins && after.latch == chip.latch && after.hasReset == chip.hasReset
  }

  lemma {:induction false} CheckAllAt(cfg: Config, h: Hub, order: seq<ChipKey>, key: ChipKey)
    requires Wired(cfg, h) && key in h.chips
    requires WellUsed(h.chips[key]) && Faithful(h.chips[key], h.world.devices[key])
    ensures var r := CheckAll(cfg, h, order);
      && SameSetup(h.chips[key], r.chips[key])
      && Faithful(r.chips[key], r.world.devices[key])
      && (r.chips[key].available && (key in order || Driven(h.chips[key], h.world.devices[key]))
          ==> Driven(r.chips[key], r.world.devices[key]))
    decreases |order|
  {
    hide CheckSetup, Fitted;
    if order != [] {
      var next := h;
      if order[0] in h.chips && h.chips[order[0]].available {
        next := PutRig(h, order[0], CheckSetup(RigAt(h, order[0]), cfg.answers));
        if order[0] == key {
          CheckSetupKeepsFaith(RigAt(h, key), cfg.answers);
        }
      }
      CheckAllAt(cfg, next, order[1..], key);
      if !next.chips[key].available {
        CheckAllSkips(cfg, next, order[1..], key);
      }
    }
  }

  /** A chip that does not answer is not checked. */
  lemma {:induction false} CheckAllSkips(cfg: Config, h: Hub, order: seq<ChipKey>, key: ChipKey)
    requires Wired(cfg, h) && key in h.chips && !h.chips[key].available
    ensures var r := CheckAll(cfg, h, order); r.chips[key] == h.chips[key]
    decreases |order|
  {
    hide CheckSetup, Fitted;
    if order != [] {
      if order[0] in h.chips && h.chips[order[0]].available {
        CheckAllSkips(cfg, PutRig(h, order[0], CheckSetup(RigAt(h, order[0]), cfg.answers)), order[1..], key);
      } else {
        CheckAllSkips(cfg, h, order[1..], key);
      }
    }
  }

  lemma {:induction false} BringUpAllAt(cfg: Config, h: Hub, order: seq<ChipKey>, key: ChipKey)
    requires Wired(cfg, h) && key in h.chips && Faithful(h.chips[key], h.world.devices[key])
    ensures var r := BringUpAll(cfg, h, order);
      && SameSetup(h.chips[key], r.chips[key])
      && Faithful(r.chips[key], r.world.devices[key])
      && (h.chips[key].available ==> r.chips[key] == h.chips[key] && r.world.devices[key] == h.world.devices[key])
      && (!h.chips[key].available && r.chips[key].available ==> Driven(r.chips[key], r.world.devices[key]))
      && (key in order && r.world.calls.failed == h.world.calls.failed ==> r.chips[key].available)
    decreases |order|
  {
    hide BringUp, Fitted, Driven, Faithful;
    if order != [] {
      var next := h;
      if order[0] in h.chips && !h.chips[order[0]].available {
        next := PutRig(h, order[0], BringUp(RigAt(h, order[0]), cfg.answers));
        if order[0] == key {
          BringUpKeepsFaith(RigAt(h, key), cfg.answers);
        }
      }
      BringUpAllAt(cfg, next, order[1..], key);
    }
  }

  lemma HoldInResetEffect(rig: Rig, answers: nat -> bool)
    ensures var r := HoldInReset(rig, answers);
      && r.chip == rig.chip
      && (Faithful(rig.chip, rig.dev) ==> Faithful(r.chip, r.dev))
      && (r.dev == rig.dev || OutputsOff(r.dev))
      && (!rig.chip.lineHeld ==> r.dev == rig.dev)
      && (rig.chip.lineHeld && r.calls.failed == rig.calls.failed ==> OutputsOff(r.dev))
  {
  }

  lemma {:induction false} HoldAllAt(cfg: Config, h: Hub, order: seq<ChipKey>, key: ChipKey)
    requires Wired(cfg, h) && key in h.chips && Faithful(h.chips[key], h.world.devices[key])
    ensures var r := HoldAll(cfg, h, order);
      && r.chips[key] == h.chips[key]
      && Faithful(r.chips[key], r.world.devices[key])
      && (r.world.devices[key] == h.world.devices[key] || OutputsOff(r.world.devices[key]))
      && (!h.chips[key].lineHeld ==> r.world.devices[key] == h.world.devices[key])
      && (key in order && h.chips[key].lineHeld && r.world.calls.failed == h.world.calls.failed
          ==> OutputsOff(r.world.devices[key]))
    decreases |order|
  {
    hide HoldInReset, Fitted, OutputsOff, Faithful;
    if order != [] {
      var next := h;
      if order[0] in h.chips {
        next := PutRig(h, order[0], HoldInReset(RigAt(h, order[0]), cfg.answers));
        HoldInResetEffect(RigAt(h, order[0]), cfg.answers);
      }
      HoldAllAt(cfg, next, order[1..], key);
    }
  }

  /** In reset and so driving nothing. */
  predicate OutputsOff(dev: Device) {
    dev.inReset && dev.inputs == ALL_PINS && dev.latch == {}
  }

  // --------------------------------------------------------------- duty cycle

  /** More is never less, full is the whole period, and what is not off gets
      at least the least level. */
  lemma DutyFollowsLevel(a: nat, b: nat, periodNs: nat, minLevel: nat, offAtZero: bool)
    requires minLevel <= LEVEL_MAX
    ensures a <= b ==> PwmDutyNs(Level(a), periodNs, minLevel, offAtZero) <= PwmDutyNs(Level(b), periodNs, minLevel, offAtZero)
    ensures PwmDutyNs(Level(a), periodNs, minLevel, offAtZero) <= periodNs
    ensures a >= LEVEL_MAX ==> PwmDutyNs(Level(a), periodNs, minLevel, offAtZero) == periodNs
    ensures a > 0 || !offAtZero ==> PwmDutyNs(Level(a), periodNs, minLevel, offAtZero) >= Share(periodNs, minLevel)
    ensures offAtZero ==> PwmDutyNs(Level(0), periodNs, minLevel, offAtZero) == 0
  {
    hide Percent, Share;
    PercentFollowsLevel(a, b, minLevel, offAtZero);
    var low, high := Percent(a, minLevel, offAtZero), Percent(b, minLevel, offAtZero);
    if a <= b { ShareGrows(periodNs, low, high); }
    ShareGrows(periodNs, low, LEVEL_MAX);
    if a > 0 || !offAtZero { ShareGrows(periodNs, minLevel, low); }
    WholeShare(periodNs);
  }

  lemma PercentFollowsLevel(a: nat, b: nat, minLevel: nat, offAtZero: bool)
    requires minLevel <= LEVEL_MAX
    ensures a <= b ==> Percent(a, minLevel, offAtZero) <= Percent(b, minLevel, offAtZero)
    ensures Percent(a, minLevel, offAtZero) <= LEVEL_MAX
    ensures a >= LEVEL_MAX ==> Percent(a, minLevel, offAtZero) == LEVEL_MAX
    ensures a > 0 || !offAtZero ==> Percent(a, minLevel, offAtZero) >= minLevel
    ensures offAtZero ==> Percent(0, minLevel, offAtZero) == 0
  {
    hide Share;
    if a <= b { ShareGrows(LEVEL_MAX - minLevel, Capped(a), Capped(b)); }
    ShareGrows(LEVEL_MAX - minLevel, Capped(a), LEVEL_MAX);
    WholeShare(LEVEL_MAX - minLevel);
  }

  lemma WholeShare(whole: nat)
    ensures Share(whole, LEVEL_MAX) == whole && Share(whole, 0) == 0
  {
  }

  lemma ShareGrows(whole: nat, x: nat, y: nat)
    requires x <= y
    ensures Share(whole, x) <= Share(whole, y)
  {
    var less, more := whole * x, whole * y;
    assert less <= more;
    assert less / LEVEL_MAX <= more / LEVEL_MAX;
  }
}
