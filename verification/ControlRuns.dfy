/** The hardware invariants of the control hub over whole runs: whatever is
    set, boosted, retried or shut down, with any pattern of failing calls and
    of devices that lose their supply between two operations. */
module ControlRuns {
  import opened ControlModel
  import opened ControlDevices

  /** The channel puts out the duty cycle of `value`; after `shut_down` it may
      have been stopped. */
  predicate Plays(b: Binding, value: Value, fan: Fan, stopped: bool)
    requires b.Pwm? && b.minLevel <= LEVEL_MAX
  {
    fan.periodNs == b.periodNs && fan.dutyNs == DutyOf(b, value) && (fan.enabled || stopped)
  }

  ghost predicate OutputsShowStates(cfg: Config, h: Hub)
    requires Wired(cfg, h)
  {
    forall i :: 0 <= i < |cfg.controls| && cfg.controls[i].binding.Pwm? && h.outputs[cfg.controls[i].binding.pwm].available
      ==> Plays(cfg.controls[i].binding, h.states[i].value, h.world.fans[cfg.controls[i].binding.pwm], h.shuttingDown)
  }

  /** What every run keeps. The latch and the duty cycle belong to one switch
      or slider only when no two controls share a pin or a channel. */
  ghost predicate Sound(cfg: Config, h: Hub) {
    && Wired(cfg, h)
    && ChipsFaithful(h)
    && PinsConfigured(cfg, h)
    && AvailabilityExact(cfg, h)
    && (DistinctPins(cfg.controls) ==> LatchesShowStates(cfg, h))
    && (DistinctChannels(cfg.controls) ==> OutputsShowStates(cfg, h))
  }

  // -------------------------------------------------------------- PWM outputs

  lemma DriveChannelPlays(ch: Channel, answers: nat -> bool, b: Binding, previous: Value, value: Value)
    requires b.Pwm? && b.minLevel <= LEVEL_MAX
    ensures var r := DriveChannel(ch, answers, b, previous, value);
      r.1 ==> Plays(b, value, r.0.fan, false)
  {
    hide DutyOf;
  }

  lemma PutOnHardwareChannel(cfg: Config, h: Hub, index: nat, value: Value)
    requires Wired(cfg, h) && index < |cfg.controls|
    ensures var b := cfg.controls[index].binding; var put := PutOnHardware(cfg, h, index, value);
      if b.Pwm? then
        var done := DriveChannel(ChannelAt(h, b.pwm), cfg.answers, b, h.states[index].value, value);
        && put.0.outputs == h.outputs[b.pwm := done.0.out]
        && put.0.world.fans == h.world.fans[b.pwm := done.0.fan]
        && put.1 == done.1
      else put.0.outputs == h.outputs && put.0.world.fans == h.world.fans
  {
    hide SwitchPin, DriveChannel, RefreshAndSend;
  }

  /** With distinct channels, writing control `index` and recording its value
      keeps every driven channel at the value of its control. */
  lemma PutOnHardwareMovesOutput(cfg: Config, h: Hub, index: nat, value: Value, r: Hub)
    requires Wired(cfg, h) && index < |cfg.controls| && DistinctChannels(cfg.controls) && OutputsShowStates(cfg, h)
    requires Wired(cfg, r) && Writes(cfg, h, index, value, r)
    ensures OutputsShowStates(cfg, r)
  {
    hide PutOnHardware, DriveChannel, Plays;
    var b := cfg.controls[index].binding;
    PutOnHardwareChannel(cfg, h, index, value);
    if b.Pwm? {
      DriveChannelPlays(ChannelAt(h, b.pwm), cfg.answers, b, h.states[index].value, value);
    }
    forall i | 0 <= i < |cfg.controls| && cfg.controls[i].binding.Pwm? && r.outputs[cfg.controls[i].binding.pwm].available
      ensures Plays(cfg.controls[i].binding, r.states[i].value, r.world.fans[cfg.controls[i].binding.pwm], r.shuttingDown)
    {
      if i == index {
        assert Plays(b, value, r.world.fans[b.pwm], false);
        PlaysWhenStopped(b, value, r.world.fans[b.pwm], r.shuttingDown);
      } else {
        assert b.Pwm? ==> cfg.controls[i].binding.pwm != b.pwm;
      }
    }
  }

  lemma PlaysWhenStopped(b: Binding, value: Value, fan: Fan, stopped: bool)
    requires b.Pwm? && b.minLevel <= LEVEL_MAX && Plays(b, value, fan, false)
    ensures Plays(b, value, fan, stopped)
  {
  }

  lemma PutChannelPlays(cfg: Config, h: Hub, index: nat, ch: Channel)
    requires Wired(cfg, h) && index < |cfg.controls| && cfg.controls[index].binding.Pwm?
    requires DistinctChannels(cfg.controls) && OutputsShowStates(cfg, h)
    requires ch.out.available ==> Plays(cfg.controls[index].binding, h.states[index].value, ch.fan, h.shuttingDown)
    ensures Wired(cfg, PutChannel(h, cfg.controls[index].binding.pwm, ch))
    ensures OutputsShowStates(cfg, PutChannel(h, cfg.controls[index].binding.pwm, ch))
  {
    hide Plays;
  }

  /** Bringing up keeps every driven channel at the value of its control. */
  lemma {:induction false} BringUpPwmPlays(cfg: Config, h: Hub, index: nat)
    requires Wired(cfg, h) && index <= |cfg.controls|
    requires DistinctChannels(cfg.controls) && OutputsShowStates(cfg, h)
    ensures OutputsShowStates(cfg, BringUpPwm(cfg, h, index))
    decreases |cfg.controls| - index
  {
    hide DriveChannel, Plays, OutputsShowStates, DistinctChannels;
    if index < |cfg.controls| {
      var b := cfg.controls[index].binding;
      var next := h;
      if b.Pwm? && !h.outputs[b.pwm].available {
        var off, value := OffValue(cfg.controls[index]), h.states[index].value;
        var done := DriveChannel(ChannelAt(h, b.pwm), cfg.answers, b, off, value);
        next := PutChannel(h, b.pwm, done.0);
        DriveChannelPlays(ChannelAt(h, b.pwm), cfg.answers, b, off, value);
        if done.1 {
          PlaysWhenStopped(b, value, done.0.fan, h.shuttingDown);
        }
        PutChannelPlays(cfg, h, index, done.0);
      }
      BringUpPwmPlays(cfg, next, index + 1);
    }
  }

  /** Without a failure a channel that was driven stays driven, and the
      channel of every control from `index` on is driven. */
  lemma {:induction false} BringUpPwmReaches(cfg: Config, h: Hub, index: nat, key: PwmKey)
    requires Wired(cfg, h) && index <= |cfg.controls| && key in h.outputs
    requires BringUpPwm(cfg, h, index).world.calls.failed == h.world.calls.failed
    requires h.outputs[key].available
             || exists i :: index <= i < |cfg.controls| && cfg.controls[i].binding.Pwm? && cfg.controls[i].binding.pwm == key
    ensures BringUpPwm(cfg, h, index).outputs[key].available
    decreases |cfg.controls| - index
  {
    hide DriveChannel;
    if index < |cfg.controls| {
      var b := cfg.controls[index].binding;
      var next := h;
      if b.Pwm? && !h.outputs[b.pwm].available {
        var done := DriveChannel(ChannelAt(h, b.pwm), cfg.answers, b, OffValue(cfg.controls[index]), h.states[index].value);
        next := PutChannel(h, b.pwm, done.0);
      }
      BringUpPwmReaches(cfg, next, index + 1, key);
    }
  }

  lemma {:induction false} StopOutputsPlays(cfg: Config, h: Hub, index: nat)
    requires Wired(cfg, h) && index <= |cfg.controls| && h.shuttingDown && OutputsShowStates(cfg, h)
    ensures OutputsShowStates(cfg, StopOutputs(cfg, h, index))
    decreases |cfg.controls| - index
  {
    hide OutputsShowStates;
    if index < |cfg.controls| {
      var b := cfg.controls[index].binding;
      var next := h;
      if b.Pwm? && b.offOnExit && h.outputs[b.pwm].open {
        var ch := ChannelAt(h, b.pwm);
        var call := Attempt(ch.calls, cfg.answers, true);
        var stopped := ch.(calls := call.0, fan := ch.fan.(enabled := ch.fan.enabled && !call.1));
        next := PutChannel(h, b.pwm, stopped);
        StopOnePlays(cfg, h, b.pwm, stopped);
      }
      StopOutputsPlays(cfg, next, index + 1);
    }
  }

  lemma StopOnePlays(cfg: Config, h: Hub, key: PwmKey, ch: Channel)
    requires Wired(cfg, h) && key in h.outputs && h.shuttingDown && OutputsShowStates(cfg, h)
    requires ch.out == h.outputs[key] && ch.fan == h.world.fans[key].(enabled := ch.fan.enabled)
    ensures Wired(cfg, PutChannel(h, key, ch)) && OutputsShowStates(cfg, PutChannel(h, key, ch))
  {
    hide DutyOf;
  }

  // ------------------------------------------------------------------ writing

  /** `r` is the hub after control `index` was written with `value` and its
      state recorded: the write's hardware, and the value if it succeeded. */
  ghost predicate Writes(cfg: Config, h: Hub, index: nat, value: Value, r: Hub)
    requires Wired(cfg, h) && index < |cfg.controls|
  {
    var put := PutOnHardware(cfg, h, index, value);
    && r.chips == put.0.chips && r.outputs == put.0.outputs && r.world == put.0.world
    && r.shuttingDown == h.shuttingDown
    && |r.states| == |h.states|
    && (forall i :: 0 <= i < |r.states| ==> r.states[i].available == put.0.states[i].available)
    && (forall i :: 0 <= i < |r.states| && i != index ==> r.states[i].value == h.states[i].value)
    && r.states[index].value == if put.1 then value else h.states[index].value
  }

  lemma WriteKeepsSound(cfg: Config, h: Hub, index: nat, value: Value, r: Hub)
    requires Sound(cfg, h) && index < |cfg.controls|
    requires Wired(cfg, r) && Writes(cfg, h, index, value, r)
    ensures Sound(cfg, r)
  {
    hide PutOnHardware, OutputsShowStates, PinsOf, PinsOn, Faithful, WellUsed, Fitted, DistinctPins, DistinctChannels;
    var put := PutOnHardware(cfg, h, index, value);
    PutOnHardwareKeepsFaith(cfg, h, index, value);
    PutOnHardwareAvailability(cfg, h, index, value);
    assert AvailabilityExact(cfg, r) by {
      forall i | 0 <= i < |r.states| ensures r.states[i].available == Reachable(cfg.controls[i], r) {
        assert put.0.states[i].available == Reachable(cfg.controls[i], put.0);
      }
    }
    assert PinsConfigured(cfg, r) by {
      PutOnHardwareRig(cfg, h, index, value);
      forall key | key in r.chips ensures r.chips[key].usedPins == PinsOf(cfg.controls, key) {
        assert key in h.chips;
        PutOnHardwareLatches(cfg, h, index, value, key);
      }
    }
    if DistinctPins(cfg.controls) {
      PutOnHardwareMovesLatch(cfg, h, index, value, r.states);
    }
    if DistinctChannels(cfg.controls) {
      PutOnHardwareMovesOutput(cfg, h, index, value, r);
    }
  }

  // --------------------------------------------------------------- operations

  /** Sound says nothing about these parts of the hub. */
  predicate SameHardwareAndStates(h: Hub, r: Hub) {
    r == h.(boosting := r.boosting, normal := r.normal, saved := r.saved, sent := r.sent)
  }

  lemma SoundCarriesOver(cfg: Config, h: Hub, r: Hub)
    requires Sound(cfg, h) && SameHardwareAndStates(h, r)
    ensures Sound(cfg, r)
  {
    hide PinsOf, PinsOn, Faithful, WellUsed, Fitted, DistinctPins, DistinctChannels, Plays;
  }

  /** A write that was recorded, or failed, is a write. */
  lemma RecordedWrite(cfg: Config, h: Hub, index: nat, value: Value)
    requires Wired(cfg, h) && index < |cfg.controls| && AvailabilityExact(cfg, h)
    ensures var put := PutOnHardware(cfg, h, index, value);
      Writes(cfg, h, index, value, if put.1 then Record(cfg, put.0, index, value) else put.0)
  {
    hide PutOnHardware, Fitted;
    PutOnHardwareEffect(cfg, h, index, value);
    PutOnHardwareAvailability(cfg, h, index, value);
    PutOnHardwareReaches(cfg, h, index, value);
  }

  predicate Named(cfg: Config, id: string, i: nat) {
    i < |cfg.controls| && cfg.controls[i].id == id
  }

  /** A switch takes on and off, a slider the levels from 0 to 100. */
  predicate Takes(c: Control, value: Value) {
    if c.kind == Switch then value.On? else value.Level? && value.level <= 100
  }

  /** When `set` refuses, and with which error; a refusal changes no value
      and saves none. */
  lemma SetAnswersExactly(cfg: Config, h: Hub, id: string, value: Value)
    requires Wired(cfg, h) && UniqueIds(cfg.controls)
    ensures var r := Set(cfg, h, id, value).0; var answer := Set(cfg, h, id, value).1;
      && (answer == Refused(Unavailable) <==> h.shuttingDown || r.world.calls.failed != h.world.calls.failed)
      && (answer == Refused(NotFound) <==> !h.shuttingDown && forall i: nat :: !Named(cfg, id, i))
      && (answer == Refused(InvalidValue) <==> !h.shuttingDown && exists i: nat :: Named(cfg, id, i) && !Takes(cfg.controls[i], value))
      && (answer.Refused? ==>
            && r.saved == h.saved && r.normal == h.normal
            && forall i :: 0 <= i < |h.states| ==> r.states[i].value == h.states[i].value)
  {
    hide PutOnHardware, Wired;
    var i := IndexOf(cfg.controls, id);
    assert |h.states| == |cfg.controls| by { StatesBeside(cfg, h); }
    if i < |cfg.controls| {
      assert Named(cfg, id, i);
      assert forall k: nat :: Named(cfg, id, k) ==> k == i;
      if !h.shuttingDown {
        PutOnHardwareEffect(cfg, h, i, value);
      }
    }
  }

  lemma StatesBeside(cfg: Config, h: Hub)
    requires Wired(cfg, h)
    ensures |h.states| == |cfg.controls|
  {
  }

  /** What a `set` that is done answers: the new state, which the hub then
      holds and has sent, or the boosted one that goes on being shown. */
  predicate AnswersState(cfg: Config, h: Hub, r: Hub, i: nat, value: Value, answer: ControlState) {
    && i < |cfg.controls| == |h.states| == |r.states|
    && answer == r.states[i]
    && answer == (if h.boosting && cfg.controls[i].boost then h.states[i] else ControlState(cfg.controls[i].id, value, true))
    && r.sent != [] && r.sent[|r.sent| - 1] == answer
    && r.saved == (if cfg.saving then h.saved[cfg.controls[i].id := value] else h.saved)
  }

  lemma SetAnswersState(cfg: Config, h: Hub, id: string, value: Value)
    requires Wired(cfg, h) && UniqueIds(cfg.controls) && Set(cfg, h, id, value).1.Done?
    ensures exists i: nat :: Named(cfg, id, i) && AnswersState(cfg, h, Set(cfg, h, id, value).0, i, value, Set(cfg, h, id, value).1.state)
  {
    hide PutOnHardware, Fits;
    var i := IndexOf(cfg.controls, id);
    PutOnHardwareEffect(cfg, h, i, value);
    assert Named(cfg, id, i);
    assert AnswersState(cfg, h, Set(cfg, h, id, value).0, i, value, Set(cfg, h, id, value).1.state);
  }

  lemma SetKeepsSound(cfg: Config, h: Hub, id: string, value: Value)
    requires Sound(cfg, h)
    ensures Sound(cfg, Set(cfg, h, id, value).0)
  {
    hide PutOnHardware, Sound, IndexOf, Record, Writes, Wired;
    SoundIsWired(cfg, h);
    var r := Set(cfg, h, id, value).0;
    var index := IndexOf(cfg.controls, id);
    if SameHardwareAndStates(h, r) {
      SoundCarriesOver(cfg, h, r);
    } else {
      RecordedWrite(cfg, h, index, value);
      WriteKeepsSound(cfg, h, index, value, r);
    }
  }

  lemma SoundIsWired(cfg: Config, h: Hub)
    requires Sound(cfg, h)
    ensures Wired(cfg, h) && AvailabilityExact(cfg, h)
  {
  }

  lemma FollowKeepsSound(cfg: Config, h: Hub, index: nat, overheated: bool)
    requires Sound(cfg, h) && index < |cfg.controls|
    ensures Sound(cfg, Follow(cfg, h, index, overheated))
  {
    hide PutOnHardware, Sound, Fitted, Target, SetAside;
    SoundIsWired(cfg, h);
    if cfg.controls[index].boost {
      var h0, target := SetAside(cfg, h, index, overheated), Target(cfg, h, index, overheated);
      AsideKeepsHardware(cfg, h, index, overheated);
      SoundCarriesOver(cfg, h, h0);
      SoundIsWired(cfg, h0);
      PutOnHardwareEffect(cfg, h0, index, target);
      WriteKeepsSound(cfg, h0, index, target, Follow(cfg, h, index, overheated));
    }
  }

  lemma AsideKeepsHardware(cfg: Config, h: Hub, index: nat, overheated: bool)
    requires Wired(cfg, h) && index < |cfg.controls|
    ensures SameHardwareAndStates(h, SetAside(cfg, h, index, overheated)) && Wired(cfg, SetAside(cfg, h, index, overheated))
  {
    hide Fitted;
  }

  lemma {:induction false} FollowFromKeepsSound(cfg: Config, h: Hub, index: nat, overheated: bool)
    requires Sound(cfg, h) && index <= |cfg.controls|
    ensures Sound(cfg, FollowFrom(cfg, h, index, overheated))
    decreases |cfg.controls| - index
  {
    hide Follow, Sound;
    SoundIsWired(cfg, h);
    if index < |cfg.controls| {
      FollowKeepsSound(cfg, h, index, overheated);
      FollowFromKeepsSound(cfg, Follow(cfg, h, index, overheated), index + 1, overheated);
    }
  }

  lemma SetOverheatedKeepsSound(cfg: Config, h: Hub, overheated: bool)
    requires Sound(cfg, h)
    ensures Sound(cfg, SetOverheated(cfg, h, overheated))
  {
    hide FollowFrom, Sound;
    SoundIsWired(cfg, h);
    var h0 := h.(boosting := overheated);
    SoundCarriesOver(cfg, h, h0);
    FollowFromKeepsSound(cfg, h0, 0, overheated);
  }

  /** What the loops over all chips in `retry_unavailable` achieve. */
  lemma ChipsAfterRetry(cfg: Config, h: Hub, order: seq<ChipKey>, key: ChipKey)
    requires Wired(cfg, h) && key in h.chips
    requires WellUsed(h.chips[key]) && Faithful(h.chips[key], h.world.devices[key])
    ensures var r := BringUpAll(cfg, CheckAll(cfg, h, order), order);
      && SameSetup(h.chips[key], r.chips[key])
      && Faithful(r.chips[key], r.world.devices[key])
      && (key in order && r.world.calls.failed == h.world.calls.failed ==>
            r.chips[key].available && Driven(r.chips[key], r.world.devices[key]))
  {
    hide CheckAll, BringUpAll, Driven, Faithful, Wired;
    CheckAllAt(cfg, h, order, key);
    BringUpAllAt(cfg, CheckAll(cfg, h, order), order, key);
  }

  /** Chips with the setup of `h` and faithful devices keep the invariants
      on chips, as long as no value changed. */
  lemma ChipsKept(cfg: Config, h: Hub, r: Hub)
    requires Wired(cfg, h) && Wired(cfg, r) && ChipsFaithful(h) && PinsConfigured(cfg, h)
    requires r.chips.Keys == h.chips.Keys
    requires forall key :: key in h.chips ==> SameSetup(h.chips[key], r.chips[key]) && Faithful(r.chips[key], r.world.devices[key])
    requires forall i :: 0 <= i < |h.states| ==> r.states[i].value == h.states[i].value
    ensures ChipsFaithful(r) && PinsConfigured(cfg, r)
    ensures LatchesShowStates(cfg, h) ==> LatchesShowStates(cfg, r)
  {
    hide PinsOn, PinsOf, Faithful, Fitted;
    forall key | key in r.chips
      ensures PinsOn(cfg.controls, r.states, key) == PinsOn(cfg.controls, h.states, key)
    {
      PinsOnSame(cfg.controls, h.states, r.states, key);
    }
  }

  lemma RetryKeepsSound(cfg: Config, h: Hub, order: seq<ChipKey>)
    requires Sound(cfg, h)
    ensures Sound(cfg, Retry(cfg, h, order))
  {
    hide CheckAll, BringUpAll, BringUpPwm, RefreshAndSend, LatchesShowStates, PinsConfigured, Faithful, Fitted, SameSetup, OutputsShowStates, AvailabilityExact;
    if !h.shuttingDown {
      var up := BringUpAll(cfg, CheckAll(cfg, h, order), order);
      var driven := BringUpPwm(cfg, up, 0);
      var r := Retry(cfg, h, order);
      RefreshEffect(cfg, driven, true, "");
      RefreshKeepsValues(cfg, driven, true, "");
      forall key | key in h.chips
        ensures SameSetup(h.chips[key], r.chips[key]) && Faithful(r.chips[key], r.world.devices[key])
      {
        ChipsAfterRetry(cfg, h, order, key);
      }
      ChipsKept(cfg, h, r);
      if DistinctChannels(cfg.controls) {
        SameOutputs(cfg, h, up);
        BringUpPwmPlays(cfg, up, 0);
        SameOutputs(cfg, driven, r);
      }
    }
  }

  lemma SameOutputs(cfg: Config, h: Hub, r: Hub)
    requires Wired(cfg, h) && Wired(cfg, r) && OutputsShowStates(cfg, h)
    requires r.outputs == h.outputs && r.world.fans == h.world.fans && (h.shuttingDown ==> r.shuttingDown)
    requires forall i :: 0 <= i < |h.states| ==> r.states[i].value == h.states[i].value
    ensures OutputsShowStates(cfg, r)
  {
    hide DutyOf;
  }

  lemma RefreshKeepsValues(cfg: Config, h: Hub, all: bool, except: string)
    requires Wired(cfg, h)
    ensures var r := RefreshAndSend(cfg, h, all, except);
      forall i :: 0 <= i < |h.states| ==> r.states[i].value == h.states[i].value
  {
  }

  lemma ShutDownKeepsSound(cfg: Config, h: Hub, order: seq<ChipKey>)
    requires Sound(cfg, h)
    ensures Sound(cfg, ShutDown(cfg, h, order))
  {
    hide HoldAll, StopOutputs, PinsOn, PinsOf, WellUsed, Faithful, Fitted, DistinctPins, DistinctChannels, OutputsShowStates;
    var stopped := StopOutputs(cfg, h.(shuttingDown := true), 0);
    var r := ShutDown(cfg, h, order);
    forall key | key in h.chips
      ensures r.chips[key] == h.chips[key] && Faithful(r.chips[key], r.world.devices[key])
    {
      HoldAllAt(cfg, stopped, order, key);
    }
    StopKeepsAvailability(cfg, h.(shuttingDown := true), 0);
    if DistinctChannels(cfg.controls) {
      SameOutputs(cfg, h, h.(shuttingDown := true));
      StopOutputsPlays(cfg, h.(shuttingDown := true), 0);
      SameOutputs(cfg, stopped, r);
    }
  }

  lemma PutSameOutput(cfg: Config, h: Hub, key: PwmKey, ch: Channel)
    requires Wired(cfg, h) && key in h.outputs && ch.out == h.outputs[key]
    ensures PutChannel(h, key, ch).outputs == h.outputs && Wired(cfg, PutChannel(h, key, ch))
  {
    hide Fitted;
  }

  lemma {:induction false} StopKeepsAvailability(cfg: Config, h: Hub, index: nat)
    requires Wired(cfg, h) && index <= |cfg.controls|
    ensures StopOutputs(cfg, h, index).outputs == h.outputs
    decreases |cfg.controls| - index
  {
    hide Fitted, Attempt, PutChannel;
    if index < |cfg.controls| {
      var b := cfg.controls[index].binding;
      var next := h;
      FittedAt(cfg, h, index);
      if b.Pwm? && b.offOnExit && h.outputs[b.pwm].open {
        var ch := ChannelAt(h, b.pwm);
        var call := Attempt(ch.calls, cfg.answers, true);
        var off := ch.(calls := call.0, fan := ch.fan.(enabled := ch.fan.enabled && !call.1));
        next := PutChannel(h, b.pwm, off);
        PutSameOutput(cfg, h, b.pwm, off);
      }
      StopKeepsAvailability(cfg, next, index + 1);
    }
  }

  lemma FittedAt(cfg: Config, h: Hub, index: nat)
    requires Wired(cfg, h) && index < |cfg.controls|
    ensures var b := cfg.controls[index].binding; b.Pwm? ==> b.pwm in h.outputs
  {
  }

  /** A device that loses its supply is all inputs, which is faithful. */
  lemma ForgetKeepsSound(cfg: Config, h: Hub, key: ChipKey)
    requires Sound(cfg, h)
    ensures Sound(cfg, Forget(h, key))
  {
    hide PinsOn, PinsOf, WellUsed, Fitted, DistinctPins, DistinctChannels, Plays;
  }

  lemma StepKeepsSound(cfg: Config, h: Hub, op: Op)
    requires Sound(cfg, h)
    ensures Sound(cfg, Step(cfg, h, op))
  {
    hide Sound, Set, SetOverheated, Retry, ShutDown, Forget;
    SoundIsWired(cfg, h);
    match op
    case SetOp(id, value) => SetKeepsSound(cfg, h, id, value);
    case OverheatOp(overheated) => SetOverheatedKeepsSound(cfg, h, overheated);
    case RetryOp(order) => RetryKeepsSound(cfg, h, order);
    case ShutDownOp(order) => ShutDownKeepsSound(cfg, h, order);
    case ForgetOp(key) => ForgetKeepsSound(cfg, h, key);
  }

  /** The main invariant, for every run. */
  lemma {:induction false} RunKeepsSound(cfg: Config, h: Hub, ops: seq<Op>)
    requires Sound(cfg, h)
    ensures Sound(cfg, Run(cfg, h, ops))
  {
    hide Sound, Step;
    SoundIsWired(cfg, h);
    if ops != [] {
      RunKeepsSound(cfg, h, ops[..|ops| - 1]);
      StepKeepsSound(cfg, Run(cfg, h, ops[..|ops| - 1]), ops[|ops| - 1]);
    }
  }

  lemma AssembledChips(cfg: Config, saved: map<string, Value>, world: World)
    requires WorldFor(cfg, world)
    ensures var h := Assembled(cfg, saved, world);
      ChipsFaithful(h) && PinsConfigured(cfg, h) && LatchesShowStates(cfg, h)
  {
    hide PinsOn, PinsOf, WellUsed, StartStates;
    var h := Assembled(cfg, saved, world);
    forall key | key in h.chips
      ensures WellUsed(h.chips[key])
    {
      PinsWellUsed(cfg, key);
    }
  }

  /** A hub starts sound, whatever state the devices were left in. */
  lemma StartIsSound(cfg: Config, saved: map<string, Value>, world: World, order: seq<ChipKey>)
    requires WorldFor(cfg, world)
    ensures Sound(cfg, Start(cfg, saved, world, order))
  {
    hide BringUpAll, BringUpPwm, Assembled, LatchesShowStates, PinsConfigured, Faithful, Fitted, SameSetup, OutputsShowStates;
    var h := Assembled(cfg, saved, world);
    var up := BringUpAll(cfg, h, order);
    var driven := BringUpPwm(cfg, up, 0);
    var r := Start(cfg, saved, world, order);
    AssembledChips(cfg, saved, world);
    forall key | key in h.chips
      ensures SameSetup(h.chips[key], r.chips[key]) && Faithful(r.chips[key], r.world.devices[key])
    {
      BringUpAllAt(cfg, h, order, key);
    }
    ChipsKept(cfg, h, r);
    if DistinctChannels(cfg.controls) {
      NothingDriven(cfg, saved, world);
      SameOutputs(cfg, h, up);
      BringUpPwmPlays(cfg, up, 0);
      SameOutputs(cfg, driven, r);
    }
  }

  lemma NothingDriven(cfg: Config, saved: map<string, Value>, world: World)
    requires WorldFor(cfg, world)
    ensures OutputsShowStates(cfg, Assembled(cfg, saved, world))
  {
    hide PinsOn, PinsOf, StartStates;
  }

  lemma PinsWellUsed(cfg: Config, key: ChipKey)
    requires (forall i :: 0 <= i < |cfg.controls| ==> ValidControl(cfg.controls[i])) && key in ChipKeys(cfg.controls)
    ensures forall chip: Chip :: chip.usedPins == PinsOf(cfg.controls, key) ==> WellUsed(chip)
  {
    var i :| 0 <= i < |cfg.controls| && cfg.controls[i].binding.Mcp23017? && cfg.controls[i].binding.chip == key;
    assert cfg.controls[i].binding.pin in PinsOf(cfg.controls, key);
  }

  // ------------------------------------------------ a retry that gets through

  /** The pin of a switch is an output at the level of its state. */
  predicate PinShows(pin: nat, value: Value, dev: Device) {
    !dev.inReset && pin !in dev.inputs && (pin in dev.latch <==> value == On(true))
  }

  /** A retry whose calls all succeed leaves every chip answering and every
      configured pin and channel driven at the value of its state, whatever
      the devices had forgotten; the values themselves do not change. */
  lemma RetryDrivesEverything(cfg: Config, h: Hub, order: seq<ChipKey>)
    requires Sound(cfg, h) && !h.shuttingDown
    requires forall key :: key in h.chips ==> key in order
    requires Retry(cfg, h, order).world.calls.failed == h.world.calls.failed
    ensures var r := Retry(cfg, h, order);
      && Sound(cfg, r)
      && (forall key :: key in r.chips ==> r.chips[key].available && Driven(r.chips[key], r.world.devices[key]))
      && (forall i :: 0 <= i < |h.states| ==> r.states[i] == h.states[i].(available := true))
  {
    hide CheckAll, BringUpAll, BringUpPwm, RefreshAndSend, Sound, Driven, Faithful, WellUsed, SameSetup;
    RetryKeepsSound(cfg, h, order);
    SoundIsWired(cfg, h);
    var up := BringUpAll(cfg, CheckAll(cfg, h, order), order);
    var driven := BringUpPwm(cfg, up, 0);
    var r := Retry(cfg, h, order);
    SoundIsWired(cfg, r);
    forall key | key in r.chips
      ensures r.chips[key].available && Driven(r.chips[key], r.world.devices[key])
    {
      assert WellUsed(h.chips[key]) && Faithful(h.chips[key], h.world.devices[key]) by { SoundChip(cfg, h, key); }
      ChipsAfterRetry(cfg, h, order, key);
    }
    RefreshKeepsValues(cfg, driven, true, "");
    forall i | 0 <= i < |h.states|
      ensures r.states[i] == h.states[i].(available := true)
    {
      assert r.states[i].id == h.states[i].id;
      var b := cfg.controls[i].binding;
      if b.Pwm? {
        BringUpPwmReaches(cfg, up, 0, b.pwm);
      }
    }
  }

  lemma SoundChip(cfg: Config, h: Hub, key: ChipKey)
    requires Sound(cfg, h) && key in h.chips
    ensures WellUsed(h.chips[key]) && Faithful(h.chips[key], h.world.devices[key])
    ensures DistinctPins(cfg.controls) ==> h.chips[key].latch == PinsOn(cfg.controls, h.states, key)
    ensures h.chips[key].usedPins == PinsOf(cfg.controls, key)
  {
  }

  /** In a sound hub a driven chip shows every one of its switches. */
  lemma DrivenPinsShowStates(cfg: Config, h: Hub, index: nat)
    requires Sound(cfg, h) && DistinctPins(cfg.controls)
    requires index < |cfg.controls| && cfg.controls[index].binding.Mcp23017?
    requires Driven(h.chips[cfg.controls[index].binding.chip], h.world.devices[cfg.controls[index].binding.chip])
    ensures PinShows(cfg.controls[index].binding.pin, h.states[index].value, h.world.devices[cfg.controls[index].binding.chip])
  {
    hide Sound;
    var b := cfg.controls[index].binding;
    assert Wired(cfg, h) by { SoundIsWired(cfg, h); }
    SoundChip(cfg, h, b.chip);
    assert b.pin in PinsOf(cfg.controls, b.chip);
    if b.pin in PinsOn(cfg.controls, h.states, b.chip) {
      var i :| 0 <= i < |cfg.controls| && cfg.controls[i].binding.Mcp23017? && cfg.controls[i].binding.chip == b.chip
               && h.states[i].value == On(true) && cfg.controls[i].binding.pin == b.pin;
      assert i == index;
    }
  }

  // ---------------------------------------------------------------- shut down

  /** A shut down whose calls all succeed turns off exactly the chips whose
      reset line was requested, besides those that were off before. */
  lemma ShutDownHoldsExactly(cfg: Config, h: Hub, order: seq<ChipKey>, key: ChipKey)
    requires Sound(cfg, h) && key in h.chips && key in order
    requires ShutDown(cfg, h, order).world.calls.failed == h.world.calls.failed
    ensures OutputsOff(ShutDown(cfg, h, order).world.devices[key]) <==>
              h.chips[key].lineHeld || OutputsOff(h.world.devices[key])
  {
    hide HoldAll, StopOutputs, OutputsOff, Faithful, Sound, Fitted;
    SoundIsWired(cfg, h);
    SoundChip(cfg, h, key);
    HoldAllAt(cfg, StopOutputs(cfg, h.(shuttingDown := true), 0), order, key);
  }

  /** In particular every answering chip with a reset GPIO, in every run: it
      could not have been set up without its line. */
  lemma ShutDownHoldsChips(cfg: Config, h: Hub, order: seq<ChipKey>, key: ChipKey)
    requires Sound(cfg, h) && key in h.chips && key in order && h.chips[key].available && h.chips[key].hasReset
    requires ShutDown(cfg, h, order).world.calls.failed == h.world.calls.failed
    ensures OutputsOff(ShutDown(cfg, h, order).world.devices[key])
  {
    hide Sound, ShutDown, OutputsOff;
    SoundChip(cfg, h, key);
    ShutDownHoldsExactly(cfg, h, order, key);
  }

  /** One switch on an expander with a reset GPIO, whose first call fails. */
  function MissedConfig(key: ChipKey): Config {
    Config([Control("fan", Switch, false, Binding.Mcp23017(key, 0, true), false, false)], true, (n: nat) => n > 0)
  }

  /** Its device, left switched on by whoever used it before. */
  function LeftOn(key: ChipKey): World {
    World(map[key := Device(ALL_PINS - {0}, {0}, false)], map[], Calls(0, 0))
  }

  lemma OneChip(key: ChipKey)
    ensures WorldFor(MissedConfig(key), LeftOn(key))
    ensures var h := Assembled(MissedConfig(key), map[], LeftOn(key));
      h.chips.Keys == {key} && h.chips[key].hasReset && !h.chips[key].lineHeld && !h.chips[key].available && h.world == LeftOn(key)
  {
    var cfg := MissedConfig(key);
    assert ChipKeys(cfg.controls) == {key} by { assert cfg.controls[0].binding.chip == key; }
    assert PwmKeys(cfg.controls) == {};
  }

  lemma StartMissesLine(key: ChipKey)
    ensures WorldFor(MissedConfig(key), LeftOn(key))
    ensures var h := Start(MissedConfig(key), map[], LeftOn(key), [key]);
      && h.chips.Keys == {key} && h.chips[key].hasReset && !h.chips[key].lineHeld && !h.chips[key].available
      && h.world.devices == LeftOn(key).devices
  {
    hide Assembled;
    OneChip(key);
    var cfg, h := MissedConfig(key), Assembled(MissedConfig(key), map[], LeftOn(key));
    var tried := PutRig(h, key, BringUp(RigAt(h, key), cfg.answers));
    assert BringUpAll(cfg, h, [key]) == BringUpAll(cfg, tried, []) == tried;
    assert BringUpPwm(cfg, tried, 0) == BringUpPwm(cfg, tried, 1) == tried;
    assert tried.world.devices == LeftOn(key).devices;
  }

  /** A chip whose reset line could not be requested: it never answered, and
      the shut down, without a failing call, leaves it switched on. */
  lemma ResetLineMissed()
    ensures exists cfg: Config, world: World, key: ChipKey ::
      WorldFor(cfg, world) && key in world.devices &&
      var h := Start(cfg, map[], world, [key]);
      var r := ShutDown(cfg, h, [key]);
      && key in h.chips && h.chips[key].hasReset
      && r.world.calls.failed == h.world.calls.failed
      && r.world.devices[key].latch != {}
  {
    hide Start, WorldFor;
    var key := ChipKey("bus", 32);
    StartMissesLine(key);
    var cfg, h := MissedConfig(key), Start(MissedConfig(key), map[], LeftOn(key), [key]);
    var down := h.(shuttingDown := true);
    assert StopOutputs(cfg, down, 0) == StopOutputs(cfg, down, 1) == down;
    var held := PutRig(down, key, HoldInReset(RigAt(down, key), cfg.answers));
    assert HoldAll(cfg, down, [key]) == HoldAll(cfg, held, []) == held;
    assert held.world.devices[key] == LeftOn(key).devices[key] && held.world.calls == h.world.calls;
    assert 0 in held.world.devices[key].latch;
  }

  /** As it was, or all inputs; never out of reset. */
  predicate Quieter(dev: Device, after: Device) {
    (after == dev || (after.inputs == ALL_PINS && after.latch == {})) && (dev.inReset ==> after.inReset)
  }

  lemma StepAfterShutDown(cfg: Config, h: Hub, op: Op, key: ChipKey)
    requires Sound(cfg, h) && h.shuttingDown && key in h.chips
    ensures var r := Step(cfg, h, op);
      && r.shuttingDown && r.states == h.states && r.sent == h.sent && r.saved == h.saved && r.chips == h.chips
      && Quieter(h.world.devices[key], r.world.devices[key])
  {
    hide Retry, SetOverheated, Set, ShutDown, Sound, Wired, Quieter;
    SoundIsWired(cfg, h);
    match op
    case SetOp(id, value) => NothingAfterShutDown(cfg, h, op); QuietStays(h.world.devices[key]);
    case OverheatOp(overheated) => NothingAfterShutDown(cfg, h, op); QuietStays(h.world.devices[key]);
    case RetryOp(order) => NothingAfterShutDown(cfg, h, op); QuietStays(h.world.devices[key]);
    case ShutDownOp(order) => SecondShutDown(cfg, h, order, key);
    case ForgetOp(k) => WiredDevices(cfg, h, key); QuietStays(h.world.devices[key]);
  }

  lemma QuietStays(dev: Device)
    ensures Quieter(dev, dev) && Quieter(dev, Cleared(dev))
  {
  }

  lemma WiredDevices(cfg: Config, h: Hub, key: ChipKey)
    requires Wired(cfg, h) && key in h.chips
    ensures key in h.world.devices
  {
  }

  lemma NothingAfterShutDown(cfg: Config, h: Hub, op: Op)
    requires Wired(cfg, h) && h.shuttingDown && !op.ShutDownOp? && !op.ForgetOp?
    ensures Step(cfg, h, op) == h
  {
    hide FollowFrom, PutOnHardware, BringUpAll, CheckAll, BringUpPwm, RefreshAndSend;
  }

  lemma SecondShutDown(cfg: Config, h: Hub, order: seq<ChipKey>, key: ChipKey)
    requires Sound(cfg, h) && h.shuttingDown && key in h.chips
    ensures var r := ShutDown(cfg, h, order);
      && r.shuttingDown && r.states == h.states && r.sent == h.sent && r.saved == h.saved && r.chips == h.chips
      && Quieter(h.world.devices[key], r.world.devices[key])
  {
    hide HoldAll, StopOutputs, Faithful, Sound, Fitted;
    SoundIsWired(cfg, h);
    var stopped := StopOutputs(cfg, h.(shuttingDown := true), 0);
    forall k | k in h.chips
      ensures HoldAll(cfg, stopped, order).chips[k] == h.chips[k]
    {
      SoundChip(cfg, h, k);
      HoldAllAt(cfg, stopped, order, k);
    }
    SoundChip(cfg, h, key);
    HoldAllAt(cfg, stopped, order, key);
  }

  /** After `shut_down` nothing is set, announced or saved any more, and no
      device is ever driven or lifted out of reset again. */
  lemma {:induction false} NothingHappensAfterShutDown(cfg: Config, h: Hub, ops: seq<Op>, key: ChipKey)
    requires Sound(cfg, h) && h.shuttingDown && key in h.chips
    ensures var r := Run(cfg, h, ops);
      && r.shuttingDown && r.states == h.states && r.sent == h.sent && r.saved == h.saved && r.chips == h.chips
      && Quieter(h.world.devices[key], r.world.devices[key])
  {
    hide Sound, Step, Wired;
    SoundIsWired(cfg, h);
    if ops == [] {
      WiredDevices(cfg, h, key);
    } else {
      var before := Run(cfg, h, ops[..|ops| - 1]);
      NothingHappensAfterShutDown(cfg, h, ops[..|ops| - 1], key);
      RunKeepsSound(cfg, h, ops[..|ops| - 1]);
      StepAfterShutDown(cfg, before, ops[|ops| - 1], key);
    }
  }
}
