/** What switching does to the pins: when a write reaches them, and that in
    runs in which no device forgets its setup it always does. */
module ControlDriving {
  import opened ControlModel
  import opened ControlDevices
  import opened ControlRuns

  // ------------------------------------------------------------------ one chip

  /** A write that succeeds drives the pins exactly if the chip was away, and
      so was set up anew, or its device still had its setup. */
  lemma SwitchPinDrivesExactly(rig: Rig, answers: nat -> bool, pin: nat, value: Value)
    requires WellUsed(rig.chip) && Faithful(rig.chip, rig.dev) && SwitchPin(rig, answers, pin, value).1
    ensures var r := SwitchPin(rig, answers, pin, value).0;
      Driven(r.chip, r.dev) <==> !rig.chip.available || rig.dev.inputs != ALL_PINS
  {
    hide Moved;
    InitialiseDrives(rig.(chip := rig.chip.(latch := Moved(rig.chip.latch, pin, value))), answers);
    var used :| used in rig.chip.usedPins;
    assert used in ALL_PINS && used !in ALL_PINS - rig.chip.usedPins;
  }

  // ------------------------------------------------------- runs without a loss

  /** Every answering chip drives its pins. */
  ghost predicate AllDriven(h: Hub) {
    forall key :: key in h.chips && key in h.world.devices && h.chips[key].available ==> Driven(h.chips[key], h.world.devices[key])
  }

  lemma DrivenKeepsSetup(chip: Chip, dev: Device)
    requires WellUsed(chip) && Driven(chip, dev)
    ensures dev.inputs != ALL_PINS
  {
    var used :| used in chip.usedPins;
    assert used in ALL_PINS && used !in ALL_PINS - chip.usedPins;
  }

  lemma SameHardwareSameDriven(h: Hub, r: Hub)
    requires AllDriven(h) && r.chips == h.chips && r.world.devices == h.world.devices
    ensures AllDriven(r)
  {
  }

  lemma WriteKeepsDriven(cfg: Config, h: Hub, index: nat, value: Value)
    requires Sound(cfg, h) && index < |cfg.controls| && AllDriven(h)
    ensures AllDriven(PutOnHardware(cfg, h, index, value).0)
  {
    hide Sound, SwitchPin, Driven, PutOnHardware;
    SoundIsWired(cfg, h);
    var b, r := cfg.controls[index].binding, PutOnHardware(cfg, h, index, value).0;
    PutOnHardwareRig(cfg, h, index, value);
    if b.Mcp23017? {
      SoundChip(cfg, h, b.chip);
      var rig := RigAt(h, b.chip);
      if SwitchPin(rig, cfg.answers, b.pin, value).1 {
        SwitchPinDrivesExactly(rig, cfg.answers, b.pin, value);
        if rig.chip.available {
          DrivenKeepsSetup(rig.chip, rig.dev);
        }
      }
    }
  }

  lemma SetKeepsDriven(cfg: Config, h: Hub, id: string, value: Value)
    requires Sound(cfg, h) && AllDriven(h)
    ensures AllDriven(Set(cfg, h, id, value).0)
  {
    hide Sound, PutOnHardware, Wired, AllDriven, IndexOf;
    SoundIsWired(cfg, h);
    var index := IndexOf(cfg.controls, id);
    if index < |cfg.controls| {
      WriteKeepsDriven(cfg, h, index, value);
      var put := PutOnHardware(cfg, h, index, value).0;
      var r := Set(cfg, h, id, value).0;
      if r.chips == h.chips && r.world.devices == h.world.devices {
        SameHardwareSameDriven(h, r);
      } else {
        SameHardwareSameDriven(put, r);
      }
    }
  }

  lemma FollowKeepsDriven(cfg: Config, h: Hub, index: nat, overheated: bool)
    requires Sound(cfg, h) && index < |cfg.controls| && AllDriven(h)
    ensures AllDriven(Follow(cfg, h, index, overheated))
  {
    hide Sound, PutOnHardware, Wired, AllDriven, SetAside, Target;
    SoundIsWired(cfg, h);
    if cfg.controls[index].boost {
      var aside, target := SetAside(cfg, h, index, overheated), Target(cfg, h, index, overheated);
      AsideKeepsHardware(cfg, h, index, overheated);
      SoundCarriesOver(cfg, h, aside);
      SameHardwareSameDriven(h, aside);
      WriteKeepsDriven(cfg, aside, index, target);
      SameHardwareSameDriven(PutOnHardware(cfg, aside, index, target).0, Follow(cfg, h, index, overheated));
    }
  }

  lemma {:induction false} FollowFromKeepsDriven(cfg: Config, h: Hub, index: nat, overheated: bool)
    requires Sound(cfg, h) && index <= |cfg.controls| && AllDriven(h)
    ensures AllDriven(FollowFrom(cfg, h, index, overheated))
    decreases |cfg.controls| - index
  {
    hide Sound, Follow, Wired, AllDriven;
    SoundIsWired(cfg, h);
    if index < |cfg.controls| {
      FollowKeepsSound(cfg, h, index, overheated);
      FollowKeepsDriven(cfg, h, index, overheated);
      FollowFromKeepsDriven(cfg, Follow(cfg, h, index, overheated), index + 1, overheated);
    }
  }

  lemma OverheatKeepsDriven(cfg: Config, h: Hub, overheated: bool)
    requires Sound(cfg, h) && AllDriven(h)
    ensures AllDriven(SetOverheated(cfg, h, overheated))
  {
    hide Sound, FollowFrom, Wired, AllDriven;
    SoundIsWired(cfg, h);
    var h0 := h.(boosting := overheated);
    SoundCarriesOver(cfg, h, h0);
    SameHardwareSameDriven(h, h0);
    FollowFromKeepsDriven(cfg, h0, 0, overheated);
  }

  lemma RetryKeepsDriven(cfg: Config, h: Hub, order: seq<ChipKey>)
    requires Sound(cfg, h) && AllDriven(h)
    ensures AllDriven(Retry(cfg, h, order))
  {
    hide Sound, CheckAll, BringUpAll, BringUpPwm, RefreshAndSend, Driven, Fitted, Faithful, WellUsed, SameSetup;
    SoundIsWired(cfg, h);
    if !h.shuttingDown {
      var checked := CheckAll(cfg, h, order);
      var r := Retry(cfg, h, order);
      forall key | key in r.chips && r.chips[key].available
        ensures Driven(r.chips[key], r.world.devices[key])
      {
        SoundChip(cfg, h, key);
        CheckAllAt(cfg, h, order, key);
        BringUpAllAt(cfg, checked, order, key);
        if !h.chips[key].available {
          CheckAllSkips(cfg, h, order, key);
        }
      }
    }
  }

  lemma {:induction false} StartIsDriven(cfg: Config, saved: map<string, Value>, world: World, order: seq<ChipKey>)
    requires WorldFor(cfg, world)
    ensures AllDriven(Start(cfg, saved, world, order))
  {
    hide BringUpAll, BringUpPwm, Driven, Fitted, Faithful, SameSetup, PinsOf, PinsOn, StartStates;
    var h, r := Assembled(cfg, saved, world), Start(cfg, saved, world, order);
    AssembledChips(cfg, saved, world);
    forall key | key in r.chips && r.chips[key].available
      ensures Driven(r.chips[key], r.world.devices[key])
    {
      BringUpAllAt(cfg, h, order, key);
    }
  }

  /** No device loses its setup, and nobody shuts down. */
  predicate Undisturbed(ops: seq<Op>) {
    forall i :: 0 <= i < |ops| ==> !ops[i].ForgetOp? && !ops[i].ShutDownOp?
  }

  /** As long as no device forgets its setup, every answering chip drives its
      pins, whatever calls fail. */
  lemma {:induction false} AlwaysDriven(cfg: Config, h: Hub, ops: seq<Op>)
    requires Sound(cfg, h) && AllDriven(h) && Undisturbed(ops)
    ensures AllDriven(Run(cfg, h, ops))
  {
    hide Sound, Set, SetOverheated, Retry, AllDriven, Wired;
    SoundIsWired(cfg, h);
    if ops != [] {
      var before, op := Run(cfg, h, ops[..|ops| - 1]), ops[|ops| - 1];
      AlwaysDriven(cfg, h, ops[..|ops| - 1]);
      RunKeepsSound(cfg, h, ops[..|ops| - 1]);
      if op.SetOp? {
        SetKeepsDriven(cfg, before, op.id, op.value);
      } else if op.OverheatOp? {
        OverheatKeepsDriven(cfg, before, op.overheated);
      } else {
        RetryKeepsDriven(cfg, before, op.order);
      }
    }
  }

  /** So from the start on, with distinct pins, every switch that is available
      shows on its pin. */
  lemma {:induction false} SwitchesShow(cfg: Config, saved: map<string, Value>, world: World, order: seq<ChipKey>, ops: seq<Op>, i: nat)
    requires WorldFor(cfg, world) && DistinctPins(cfg.controls) && Undisturbed(ops)
    requires i < |cfg.controls| && cfg.controls[i].binding.Mcp23017?
    ensures var h := Run(cfg, Start(cfg, saved, world, order), ops);
      h.states[i].available ==> PinShows(cfg.controls[i].binding.pin, h.states[i].value, h.world.devices[cfg.controls[i].binding.chip])
  {
    hide Sound, Start, Driven, DistinctPins, Run;
    StartIsSound(cfg, saved, world, order);
    StartIsDriven(cfg, saved, world, order);
    var start := Start(cfg, saved, world, order);
    RunKeepsSound(cfg, start, ops);
    AlwaysDriven(cfg, start, ops);
    var h := Run(cfg, start, ops);
    SoundIsWired(cfg, h);
    if h.states[i].available {
      DrivenPinsShowStates(cfg, h, i);
    }
  }

  /** What a user expects: once `set` is done, the pin is at the value set. */
  lemma {:induction false} SetSwitchesPin(cfg: Config, saved: map<string, Value>, world: World, order: seq<ChipKey>, ops: seq<Op>, i: nat, value: Value)
    requires WorldFor(cfg, world) && DistinctPins(cfg.controls) && UniqueIds(cfg.controls) && Undisturbed(ops)
    requires i < |cfg.controls| && cfg.controls[i].binding.Mcp23017?
    requires var h := Run(cfg, Start(cfg, saved, world, order), ops);
      Set(cfg, h, cfg.controls[i].id, value).1.Done? && !(h.boosting && cfg.controls[i].boost)
    ensures var r := Set(cfg, Run(cfg, Start(cfg, saved, world, order), ops), cfg.controls[i].id, value).0;
      PinShows(cfg.controls[i].binding.pin, value, r.world.devices[cfg.controls[i].binding.chip])
  {
    hide Start, Set, PinShows, DistinctPins, WorldFor, Wired;
    var start, id := Start(cfg, saved, world, order), cfg.controls[i].id;
    var h, longer := Run(cfg, start, ops), ops + [SetOp(id, value)];
    assert longer[..|ops|] == ops;
    assert Run(cfg, start, longer) == Set(cfg, h, id, value).0;
    SwitchesShow(cfg, saved, world, order, longer, i);
    SetAnswersState(cfg, h, id, value);
    var k: nat :| Named(cfg, id, k) && AnswersState(cfg, h, Set(cfg, h, id, value).0, k, value, Set(cfg, h, id, value).1.state);
    assert k == i;
  }
}
