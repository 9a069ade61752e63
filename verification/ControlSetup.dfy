/** How chips and channels are set up: in which order, when again and when not,
    and what a start comes to. */
module ControlSetup {
  import opened ControlModel
  import opened ControlDevices
  import opened ControlRuns
  import opened ControlEffects

  // ---------------------------------------------------------------- one chip

  /** Directions are written only over the hub's latch, so no pin ever drives a
      stale level; and with a reset line at hand a setup that does not get
      through leaves the device as it was or all inputs. */
  lemma SetupDrivesNothingStale(rig: Rig, answers: nat -> bool)
    ensures var r := Initialise(rig, answers);
      && (r.0.dev.inputs == rig.dev.inputs || r.0.dev.inputs == ALL_PINS || (!r.0.dev.inReset && r.0.dev.latch == rig.chip.latch))
      && (rig.chip.hasReset && rig.chip.lineHeld && !r.1 ==> r.0.dev == rig.dev || r.0.dev.inputs == ALL_PINS)
  {
  }

  /** A chip that still holds its setup is only read. */
  lemma HoldingChipIsOnlyRead(rig: Rig, answers: nat -> bool)
    requires rig.chip.available && rig.dev.inputs == ALL_PINS - rig.chip.usedPins
    ensures var r := CheckSetup(rig, answers);
      r.dev == rig.dev && (r.calls.failed == rig.calls.failed ==> r.chip == rig.chip.(busOpen := true))
  {
  }

  lemma {:induction false} CheckAllOnlyReads(cfg: Config, h: Hub, order: seq<ChipKey>, key: ChipKey)
    requires Wired(cfg, h) && key in h.chips && h.chips[key].available && Driven(h.chips[key], h.world.devices[key])
    requires CheckAll(cfg, h, order).world.calls.failed == h.world.calls.failed
    ensures var r := CheckAll(cfg, h, order); r.chips[key].available && r.world.devices[key] == h.world.devices[key]
    decreases |order|
  {
    hide CheckSetup, Fitted;
    if order != [] {
      var next := h;
      if order[0] in h.chips && h.chips[order[0]].available {
        next := PutRig(h, order[0], CheckSetup(RigAt(h, order[0]), cfg.answers));
        if order[0] == key {
          HoldingChipIsOnlyRead(RigAt(h, key), cfg.answers);
        }
      }
      CheckAllOnlyReads(cfg, next, order[1..], key);
    }
  }

  lemma {:induction false} BringUpLeavesAvailable(cfg: Config, h: Hub, index: nat, key: PwmKey)
    requires Wired(cfg, h) && index <= |cfg.controls| && key in h.outputs && h.outputs[key].available
    ensures var r := BringUpPwm(cfg, h, index); r.outputs[key] == h.outputs[key] && r.world.fans[key] == h.world.fans[key]
    decreases |cfg.controls| - index
  {
    hide DriveChannel;
    if index < |cfg.controls| {
      var b := cfg.controls[index].binding;
      var next := h;
      if b.Pwm? && !h.outputs[b.pwm].available {
        next := PutChannel(h, b.pwm, DriveChannel(ChannelAt(h, b.pwm), cfg.answers, b, OffValue(cfg.controls[index]), h.states[index].value).0);
      }
      BringUpLeavesAvailable(cfg, next, index + 1, key);
    }
  }

  /** A retry disturbs nothing that works: channels that are driven are not
      touched, and without a failed call no chip that drives its pins is. */
  lemma {:induction false} RetryLeavesDriven(cfg: Config, h: Hub, order: seq<ChipKey>)
    requires Sound(cfg, h)
    ensures var r := Retry(cfg, h, order);
      && (forall key :: key in h.outputs && h.outputs[key].available ==> r.outputs[key] == h.outputs[key] && r.world.fans[key] == h.world.fans[key])
      && (r.world.calls.failed == h.world.calls.failed ==>
            forall key :: key in h.chips && h.chips[key].available && Driven(h.chips[key], h.world.devices[key]) ==>
              r.world.devices[key] == h.world.devices[key])
  {
    hide CheckAll, BringUpAll, BringUpPwm, RefreshAndSend, Sound, Driven, Faithful;
    SoundIsWired(cfg, h);
    if !h.shuttingDown {
      var checked := CheckAll(cfg, h, order);
      var up := BringUpAll(cfg, checked, order);
      forall key | key in h.outputs && h.outputs[key].available
        ensures BringUpPwm(cfg, up, 0).outputs[key] == h.outputs[key] && BringUpPwm(cfg, up, 0).world.fans[key] == h.world.fans[key]
      {
        BringUpLeavesAvailable(cfg, up, 0, key);
      }
      forall key | key in h.chips && h.chips[key].available && Driven(h.chips[key], h.world.devices[key])
                   && checked.world.calls.failed == h.world.calls.failed
        ensures up.world.devices[key] == h.world.devices[key]
      {
        SoundChip(cfg, h, key);
        CheckAllAt(cfg, h, order, key);
        CheckAllOnlyReads(cfg, h, order, key);
        BringUpAllAt(cfg, checked, order, key);
      }
    }
  }

  // ---------------------------------------------------------------- the start

  /** A start whose calls all succeed has every chip driving its pins, every
      channel driven and every control available. */
  lemma {:induction false} StartDrivesEverything(cfg: Config, saved: map<string, Value>, world: World, order: seq<ChipKey>)
    requires WorldFor(cfg, world) && forall key :: key in ChipKeys(cfg.controls) ==> key in order
    requires Start(cfg, saved, world, order).world.calls.failed == world.calls.failed
    ensures var r := Start(cfg, saved, world, order);
      && (forall key :: key in r.chips ==> r.chips[key].available && Driven(r.chips[key], r.world.devices[key]))
      && (forall key :: key in r.outputs ==> r.outputs[key].available)
      && (forall i :: 0 <= i < |r.states| ==> r.states[i].available)
  {
    hide BringUpAll, BringUpPwm, Sound, Driven, Faithful, PinsOf, PinsOn, StartStates, ResetOf, Fitted;
    var h, r := Assembled(cfg, saved, world), Start(cfg, saved, world, order);
    var up := BringUpAll(cfg, h, order);
    AssembledChips(cfg, saved, world);
    StartIsSound(cfg, saved, world, order);
    SoundIsWired(cfg, r);
    forall key | key in h.chips ensures r.chips[key].available && Driven(r.chips[key], r.world.devices[key]) {
      BringUpAllAt(cfg, h, order, key);
    }
    ChannelsReached(cfg, up);
    forall i | 0 <= i < |r.states| ensures r.states[i].available {
      assert Fitted(cfg.controls[i], r.states[i].id, r.chips.Keys, r.outputs.Keys);
      FittedReaches(cfg.controls[i], r.states[i].id, r);
    }
  }

  lemma {:induction false} ChannelsReached(cfg: Config, h: Hub)
    requires Wired(cfg, h) && h.outputs.Keys == PwmKeys(cfg.controls)
    requires BringUpPwm(cfg, h, 0).world.calls.failed == h.world.calls.failed
    ensures forall key :: key in h.outputs ==> BringUpPwm(cfg, h, 0).outputs[key].available
  {
    hide BringUpPwm, PwmKeys, Fitted;
    forall key | key in h.outputs ensures BringUpPwm(cfg, h, 0).outputs[key].available {
      IsSomeones(cfg, key);
      BringUpPwmReaches(cfg, h, 0, key);
    }
  }

  lemma IsSomeones(cfg: Config, key: PwmKey)
    requires key in PwmKeys(cfg.controls)
    ensures exists i :: 0 <= i < |cfg.controls| && cfg.controls[i].binding.Pwm? && cfg.controls[i].binding.pwm == key
  {
  }

  lemma FittedReaches(c: Control, id: string, r: Hub)
    requires Fitted(c, id, r.chips.Keys, r.outputs.Keys)
    requires forall key :: key in r.chips ==> r.chips[key].available
    requires forall key :: key in r.outputs ==> r.outputs[key].available
    ensures Reachable(c, r)
  {
  }

  // ----------------------------------------------------------- announcements

  lemma {:induction false} OthersAreOthers(changes: seq<ControlState>, id: string)
    ensures forall m :: m in Others(changes, id) <==> m in changes && m.id != id
    decreases |changes|
  {
    if changes != [] {
      OthersAreOthers(changes[1..], id);
    }
  }

  /** After what was sent before, only states of other controls. */
  ghost predicate SendsOthers(before: seq<ControlState>, after: seq<ControlState>, id: string) {
    && |before| <= |after| && after[..|before|] == before
    && forall k :: |before| <= k < |after| ==> after[k].id != id
  }

  lemma {:induction false} RefreshSpeaksOfOthers(cfg: Config, h: Hub, id: string)
    requires Wired(cfg, h)
    ensures SendsOthers(h.sent, RefreshAndSend(cfg, h, false, id).sent, id)
  {
    hide Changes, Others, Reachable, Fitted;
    var after := Refreshed(cfg, h);
    var changes := Changes(h.states, after, |after|);
    OthersAreOthers(changes, id);
    var others := Others(changes, id);
    assert forall k :: 0 <= k < |others| ==> others[k] in others;
  }

  lemma {:induction false} WriteSpeaksOfOthers(cfg: Config, h: Hub, index: nat, value: Value)
    requires Wired(cfg, h) && index < |cfg.controls| && PutOnHardware(cfg, h, index, value).1
    ensures SendsOthers(h.sent, PutOnHardware(cfg, h, index, value).0.sent, cfg.controls[index].id)
  {
    hide Touch, RefreshAndSend, Fitted;
    if !cfg.controls[index].binding.Demo? {
      RefreshSpeaksOfOthers(cfg, Touch(cfg, h, index, value).0, cfg.controls[index].id);
    }
  }

  /** A `set` that is done sends the new state of its own control once, last,
      and before it only what changed on others. */
  lemma {:induction false} SetSpeaksOnce(cfg: Config, h: Hub, id: string, value: Value)
    requires Wired(cfg, h) && Set(cfg, h, id, value).1.Done?
    ensures var r := Set(cfg, h, id, value); var n := |r.0.sent| - 1;
      n >= 0 && SendsOthers(h.sent, r.0.sent[..n], id) && r.0.sent[n] == r.1.state && r.1.state.id == id
  {
    hide PutOnHardware, Fitted;
    var index := IndexOf(cfg.controls, id);
    assert Fitted(cfg.controls[index], h.states[index].id, h.chips.Keys, h.outputs.Keys);
    SameId(cfg, h, index);
    if !(h.boosting && cfg.controls[index].boost) {
      WriteSpeaksOfOthers(cfg, h, index, value);
    }
  }

  lemma SameId(cfg: Config, h: Hub, index: nat)
    requires index < |cfg.controls| == |h.states| && Fitted(cfg.controls[index], h.states[index].id, h.chips.Keys, h.outputs.Keys)
    ensures h.states[index].id == cfg.controls[index].id
  {
  }
}
