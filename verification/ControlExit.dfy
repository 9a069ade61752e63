/** What a shutdown does to the PWM channels: it stops those that are to go
    off on exit, and no other. */
module ControlExit {
  import opened ControlModel
  import opened ControlDevices
  import opened ControlRuns

  /** Some control from `index` on wants the channel off on exit. */
  ghost predicate GoesOff(controls: seq<Control>, key: PwmKey, index: nat) {
    exists i :: index <= i < |controls| && WantsOff(controls[i], key)
  }

  predicate WantsOff(c: Control, key: PwmKey) { c.binding.Pwm? && c.binding.pwm == key && c.binding.offOnExit }

  lemma GoesOffOnce(controls: seq<Control>, key: PwmKey, index: nat)
    requires index < |controls|
    ensures GoesOff(controls, key, index) <==> WantsOff(controls[index], key) || GoesOff(controls, key, index + 1)
  {
  }

  /** The hub once control `index` has had its turn, and whether it was one. */
  function StopOne(cfg: Config, h: Hub, index: nat): (r: Hub)
    requires Wired(cfg, h) && index < |cfg.controls|
    ensures Wired(cfg, r)
    ensures StopOutputs(cfg, h, index) == StopOutputs(cfg, r, index + 1)
  {
    var b := cfg.controls[index].binding;
    if b.Pwm? && b.offOnExit && h.outputs[b.pwm].open then PutChannel(h, b.pwm, StopCall(ChannelAt(h, b.pwm), cfg.answers))
    else h
  }

  /** The call that disables a channel. */
  function StopCall(ch: Channel, answers: nat -> bool): Channel {
    var call := Attempt(ch.calls, answers, true);
    ch.(calls := call.0, fan := ch.fan.(enabled := ch.fan.enabled && !call.1))
  }

  lemma StopsThis(cfg: Config, h: Hub, index: nat, key: PwmKey)
    requires Wired(cfg, h) && index < |cfg.controls| && key in h.outputs
    ensures var r := StopOne(cfg, h, index); var fan := h.world.fans[key];
      && r.outputs == h.outputs && r.world.fans.Keys == h.world.fans.Keys && h.world.calls.failed <= r.world.calls.failed
      && (r.world.fans[key] == fan || (h.outputs[key].open && WantsOff(cfg.controls[index], key) && r.world.fans[key] == fan.(enabled := false)))
      && (r.world.calls.failed == h.world.calls.failed && h.outputs[key].open && WantsOff(cfg.controls[index], key) ==>
            r.world.fans[key] == fan.(enabled := false))
  {
    hide Fitted, StopOutputs, PutChannel, StopCall;
    var b := cfg.controls[index].binding;
    FittedAt(cfg, h, index);
    WiredFans(cfg, h, key);
    if b.Pwm? && b.offOnExit && h.outputs[b.pwm].open {
      WiredFans(cfg, h, b.pwm);
      PutStops(h, cfg.answers, b.pwm, key);
      assert StopOne(cfg, h, index) == PutChannel(h, b.pwm, StopCall(ChannelAt(h, b.pwm), cfg.answers));
    }
  }

  lemma WiredFans(cfg: Config, h: Hub, key: PwmKey)
    requires Wired(cfg, h) && key in h.outputs
    ensures key in h.world.fans
  {
  }

  lemma PutStops(h: Hub, answers: nat -> bool, at: PwmKey, key: PwmKey)
    requires at in h.outputs && at in h.world.fans && key in h.world.fans
    ensures var r, fan := PutChannel(h, at, StopCall(ChannelAt(h, at), answers)), h.world.fans[key];
      && r.outputs == h.outputs && r.world.fans.Keys == h.world.fans.Keys && h.world.calls.failed <= r.world.calls.failed
      && (r.world.fans[key] == fan || (key == at && r.world.fans[key] == fan.(enabled := false)))
      && (r.world.calls.failed == h.world.calls.failed && key == at ==> r.world.fans[key] == fan.(enabled := false))
  {
  }

  /** A channel is stopped only if it is open and one of its controls wants it
      off on exit; without a failed call, exactly then. */
  lemma {:induction false} StopOutputsExactly(cfg: Config, h: Hub, index: nat, key: PwmKey)
    requires Wired(cfg, h) && index <= |cfg.controls| && key in h.outputs
    ensures var r := StopOutputs(cfg, h, index); var fan := h.world.fans[key];
      var off := h.outputs[key].open && GoesOff(cfg.controls, key, index);
      && h.world.calls.failed <= r.world.calls.failed
      && (r.world.fans[key] == fan || (off && r.world.fans[key] == fan.(enabled := false)))
      && (r.world.calls.failed == h.world.calls.failed && off ==> r.world.fans[key] == fan.(enabled := false))
    decreases |cfg.controls| - index
  {
    hide StopOne, Fitted, StopOutputs, WantsOff, GoesOff;
    if index < |cfg.controls| {
      StopsThis(cfg, h, index, key);
      GoesOffOnce(cfg.controls, key, index);
      StopOutputsExactly(cfg, StopOne(cfg, h, index), index + 1, key);
    } else {
      NoneLeft(cfg, h, key);
    }
  }

  lemma NoneLeft(cfg: Config, h: Hub, key: PwmKey)
    requires Wired(cfg, h)
    ensures StopOutputs(cfg, h, |cfg.controls|) == h && !GoesOff(cfg.controls, key, |cfg.controls|)
  {
  }

  lemma {:induction false} HoldKeepsFans(cfg: Config, h: Hub, order: seq<ChipKey>)
    requires Wired(cfg, h)
    ensures HoldAll(cfg, h, order).world.fans == h.world.fans && HoldAll(cfg, h, order).outputs == h.outputs
  {
  }

  /** A shutdown whose calls all succeed stops exactly the open channels that
      are to go off on exit; every other plays on as it was. */
  lemma {:induction false} ShutDownStopsExactly(cfg: Config, h: Hub, order: seq<ChipKey>, key: PwmKey)
    requires Wired(cfg, h) && key in h.outputs
    requires ShutDown(cfg, h, order).world.calls.failed == h.world.calls.failed
    ensures var r, fan := ShutDown(cfg, h, order), h.world.fans[key];
      r.world.fans[key] == if h.outputs[key].open && GoesOff(cfg.controls, key, 0) then fan.(enabled := false) else fan
  {
    hide HoldAll, StopOutputs, GoesOff, Fitted;
    var down := h.(shuttingDown := true);
    var stopped := StopOutputs(cfg, down, 0);
    StopOutputsExactly(cfg, down, 0, key);
    HoldKeepsFans(cfg, stopped, order);
  }

  // -------------------------------------------------------------------- runs

  /** A channel is available exactly while it is open. */
  ghost predicate OpenIsAvailable(h: Hub) {
    forall key :: key in h.outputs ==> (h.outputs[key].available <==> h.outputs[key].open)
  }

  lemma DriveOpens(ch: Channel, answers: nat -> bool, b: Binding, previous: Value, value: Value)
    requires b.Pwm? && b.minLevel <= LEVEL_MAX
    ensures var out := DriveChannel(ch, answers, b, previous, value).0.out; out.available <==> out.open
  {
    hide DutyOf;
  }

  lemma WriteKeepsOpen(cfg: Config, h: Hub, index: nat, value: Value)
    requires Wired(cfg, h) && index < |cfg.controls| && OpenIsAvailable(h)
    ensures OpenIsAvailable(PutOnHardware(cfg, h, index, value).0)
  {
    hide PutOnHardware, DriveChannel;
    PutOnHardwareChannel(cfg, h, index, value);
    var b := cfg.controls[index].binding;
    if b.Pwm? { DriveOpens(ChannelAt(h, b.pwm), cfg.answers, b, h.states[index].value, value); }
  }

  lemma SetKeepsOpen(cfg: Config, h: Hub, id: string, value: Value)
    requires Wired(cfg, h) && OpenIsAvailable(h)
    ensures OpenIsAvailable(Set(cfg, h, id, value).0)
  {
    hide PutOnHardware, Fitted, OpenIsAvailable;
    var index := IndexOf(cfg.controls, id);
    if index < |cfg.controls| { WriteKeepsOpen(cfg, h, index, value); }
    forall r: Hub | r.outputs == h.outputs ensures OpenIsAvailable(r) { SameOpen(h, r); }
    forall r: Hub | index < |cfg.controls| && r.outputs == PutOnHardware(cfg, h, index, value).0.outputs ensures OpenIsAvailable(r) {
      SameOpen(PutOnHardware(cfg, h, index, value).0, r);
    }
  }

  lemma SameOpen(h: Hub, r: Hub)
    requires OpenIsAvailable(h) && r.outputs == h.outputs
    ensures OpenIsAvailable(r)
  {
  }

  lemma {:induction false} FollowKeepsOpen(cfg: Config, h: Hub, index: nat, overheated: bool)
    requires Wired(cfg, h) && index <= |cfg.controls| && OpenIsAvailable(h)
    ensures OpenIsAvailable(FollowFrom(cfg, h, index, overheated))
    decreases |cfg.controls| - index
  {
    hide PutOnHardware, Fitted, OpenIsAvailable, Target;
    if index < |cfg.controls| {
      if cfg.controls[index].boost {
        var h0, target := SetAside(cfg, h, index, overheated), Target(cfg, h, index, overheated);
        SameOpen(h, h0);
        WriteKeepsOpen(cfg, h0, index, target);
        SameOpen(PutOnHardware(cfg, h0, index, target).0, Follow(cfg, h, index, overheated));
      }
      FollowKeepsOpen(cfg, Follow(cfg, h, index, overheated), index + 1, overheated);
    }
  }

  lemma {:induction false} BringUpKeepsOpen(cfg: Config, h: Hub, index: nat)
    requires Wired(cfg, h) && index <= |cfg.controls| && OpenIsAvailable(h)
    ensures OpenIsAvailable(BringUpPwm(cfg, h, index))
    decreases |cfg.controls| - index
  {
    hide DriveChannel;
    if index < |cfg.controls| {
      var b := cfg.controls[index].binding;
      var next := h;
      if b.Pwm? && !h.outputs[b.pwm].available {
        var off, value := OffValue(cfg.controls[index]), h.states[index].value;
        next := PutChannel(h, b.pwm, DriveChannel(ChannelAt(h, b.pwm), cfg.answers, b, off, value).0);
        DriveOpens(ChannelAt(h, b.pwm), cfg.answers, b, off, value);
      }
      BringUpKeepsOpen(cfg, next, index + 1);
    }
  }

  lemma {:induction false} StepKeepsOpen(cfg: Config, h: Hub, op: Op)
    requires Wired(cfg, h) && OpenIsAvailable(h)
    ensures OpenIsAvailable(Step(cfg, h, op))
  {
    hide Set, FollowFrom, CheckAll, BringUpAll, BringUpPwm, StopOutputs, HoldAll, Fitted, OpenIsAvailable, RefreshAndSend;
    match op
    case SetOp(id, value) => SetKeepsOpen(cfg, h, id, value);
    case OverheatOp(overheated) =>
      SameOpen(h, h.(boosting := overheated));
      FollowKeepsOpen(cfg, h.(boosting := overheated), 0, overheated);
    case RetryOp(order) =>
      var up := BringUpAll(cfg, CheckAll(cfg, h, order), order);
      SameOpen(h, up);
      BringUpKeepsOpen(cfg, up, 0);
      SameOpen(BringUpPwm(cfg, up, 0), RefreshAndSend(cfg, BringUpPwm(cfg, up, 0), true, ""));
    case ShutDownOp(order) =>
      var down := h.(shuttingDown := true);
      StopKeepsAvailability(cfg, down, 0);
      HoldKeepsFans(cfg, StopOutputs(cfg, down, 0), order);
      SameOpen(h, Step(cfg, h, op));
    case ForgetOp(key) => SameOpen(h, Forget(h, key));
  }

  lemma {:induction false} RunKeepsOpen(cfg: Config, h: Hub, ops: seq<Op>)
    requires Wired(cfg, h) && OpenIsAvailable(h)
    ensures OpenIsAvailable(Run(cfg, h, ops))
  {
    hide Step, OpenIsAvailable, Fitted;
    if ops != [] {
      RunKeepsOpen(cfg, h, ops[..|ops| - 1]);
      StepKeepsOpen(cfg, Run(cfg, h, ops[..|ops| - 1]), ops[|ops| - 1]);
    }
  }

  lemma {:induction false} StartIsOpen(cfg: Config, saved: map<string, Value>, world: World, order: seq<ChipKey>)
    requires WorldFor(cfg, world)
    ensures OpenIsAvailable(Start(cfg, saved, world, order))
  {
    hide BringUpAll, BringUpPwm, Fitted, WorldFor;
    var up := BringUpAll(cfg, Assembled(cfg, saved, world), order);
    assert OpenIsAvailable(up);
    BringUpKeepsOpen(cfg, up, 0);
  }

  /** After any run from the start, a shutdown without a failed call: every
      fan then driven is stopped if one of its controls is to go off on exit,
      and runs on at the same duty if none is. */
  lemma {:induction false} FansAfterExit(cfg: Config, saved: map<string, Value>, world: World, order: seq<ChipKey>, ops: seq<Op>,
                                         last: seq<ChipKey>, key: PwmKey)
    requires WorldFor(cfg, world)
    requires var h := Run(cfg, Start(cfg, saved, world, order), ops);
      && key in h.outputs && h.outputs[key].available
      && ShutDown(cfg, h, last).world.calls.failed == h.world.calls.failed
    ensures var h := Run(cfg, Start(cfg, saved, world, order), ops);
      ShutDown(cfg, h, last).world.fans[key] ==
        if GoesOff(cfg.controls, key, 0) then h.world.fans[key].(enabled := false) else h.world.fans[key]
  {
    hide Start, Run, ShutDown, GoesOff, Fitted;
    StartIsOpen(cfg, saved, world, order);
    RunKeepsOpen(cfg, Start(cfg, saved, world, order), ops);
    ShutDownStopsExactly(cfg, Run(cfg, Start(cfg, saved, world, order), ops), last, key);
  }
}
