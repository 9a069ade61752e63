/** What the relays do, how long each state lasts and what the settings are,
    told from the states, the received bytes and the seconds alone. */
module SupplyTimes {
  import opened Wrappers
  import opened SupplyModel
  import opened SupplyRuns
  import opened SupplyCounting
  import opened SupplyPower

  /** The command that a pass comes to, if it does. */
  function Heard(s: Supply, input: Input): Option<char> {
    if s.power.Awake? && Moved(s, input).power.Awake? && input.received.Command? then Some(input.received.command) else None
  }

  // ------------------------------------------------------------------ relays

  /** What going from one state to another does to the relays. */
  function Turned(r: Relays, from: State, to: State): Relays {
    if from == to then r
    else
      match to
      case PowerOn => r.(display := true)
      case PiBoot => r.(pi := true)
      case Run => r
      case PowerOff => r.(amplifier := false)
      case Idle => if from == PowerOn then r.(display := false) else Relays(false, false, false)
  }

  function Switched(r: Relays, c: char): Relays {
    if c == '1' then r.(display := true)
    else if c == '4' then r.(display := false)
    else if c == '2' then r.(pi := true)
    else if c == '5' then r.(pi := false)
    else if c == '3' then r.(amplifier := true)
    else if c == '6' || c == '$' then r.(amplifier := false)
    else r
  }

  /** The relays by the states gone through and the commands heard. */
  function Told(e: Eeprom, inputs: seq<Input>): Relays {
    if inputs == [] then Relays(false, false, false)
    else
      var s, input := After(e, Prefix(inputs)), Last(inputs);
      if !s.power.Awake? then Told(e, Prefix(inputs))
      else
        var turned := Turned(Told(e, Prefix(inputs)), s.state, Moved(s, input).state);
        if Heard(s, input).Some? then Switched(turned, Heard(s, input).value) else turned
  }

  lemma MovedTurns(s: Supply, input: Input)
    requires s.power.Awake?
    ensures Moved(s, input).relays == Turned(s.relays, s.state, Moved(s, input).state)
  {
    hide Machine, Timed;
    TimedKeeps(s, input);
    MachineTurns(Timed(s, input), input.kl15, input.dig3);
  }

  lemma TimedKeeps(s: Supply, input: Input)
    ensures Timed(s, input).state == s.state && Timed(s, input).relays == s.relays
  {
  }

  lemma MachineTurns(s: Supply, pin: bool, dig3: bool)
    ensures Machine(s, pin, dig3).relays == Turned(s.relays, s.state, Machine(s, pin, dig3).state)
  {
  }

  lemma InterpretSwitches(m: Supply, r: Received)
    ensures Interpret(m, r).relays == if r.Command? then Switched(m.relays, r.command) else m.relays
  {
    hide NewSettings, NewLimit, NewAlive;
  }

  /** Over all runs the relays are exactly what states and commands tell. */
  lemma {:induction false} RelaysAreTold(e: Eeprom, inputs: seq<Input>)
    ensures After(e, inputs).relays == Told(e, inputs)
  {
    hide Moved, Interpret, Turned, Switched;
    if inputs != [] {
      var s, input := After(e, Prefix(inputs)), Last(inputs);
      RelaysAreTold(e, Prefix(inputs));
      assert After(e, inputs) == Pass(s, input);
      if s.power.Awake? {
        MovedTurns(s, input);
        InterpretSwitches(Moved(s, input), input.received);
      }
    }
  }

  /** Since PIBOOT was entered a '5' came, and no '2' after it. */
  predicate TakenOff(e: Eeprom, inputs: seq<Input>) {
    inputs != [] &&
    var s, input := After(e, Prefix(inputs)), Last(inputs);
    if Heard(s, input) == Some('5') then true
    else if Heard(s, input) == Some('2') then false
    else if s.power.Awake? && s.state != PiBoot && Moved(s, input).state == PiBoot then false
    else TakenOff(e, Prefix(inputs))
  }

  lemma PassPowersPi(s: Supply, input: Input, taken: bool)
    requires s.power.Awake? && (s.state == PiBoot || s.state == Run ==> (s.relays.pi <==> !taken))
    ensures var t := Pass(s, input);
      t.state == PiBoot || t.state == Run ==>
        (t.relays.pi <==> Heard(s, input) != Some('5') && (Heard(s, input) == Some('2') || (s.state != PiBoot && t.state == PiBoot) || !taken))
  {
    hide Moved, Interpret;
    MovedTurns(s, input);
    InterpretSwitches(Moved(s, input), input.received);
    MovedStateStays(s, input);
    RunComesFromBoot(s, input);
  }

  lemma RunComesFromBoot(s: Supply, input: Input)
    ensures Moved(s, input).state == Run ==> s.state == PiBoot || s.state == Run
  {
    hide CountBattery, CountTimers;
  }

  lemma MovedStateStays(s: Supply, input: Input)
    requires s.power.Awake?
    ensures Pass(s, input).state == PiBoot || Pass(s, input).state == Run ==> Pass(s, input).state == Moved(s, input).state
  {
    hide CountBattery, NewSettings, NewLimit, NewAlive, NewRelays;
  }

  /** In PIBOOT and RUN the Pi has its power exactly if no '5' came since
      PIBOOT was entered, or a '2' after it. */
  lemma {:induction false} PiHasPowerExactly(e: Eeprom, inputs: seq<Input>)
    requires After(e, inputs).state == PiBoot || After(e, inputs).state == Run
    ensures After(e, inputs).relays.pi <==> !TakenOff(e, inputs)
  {
    PiHasPower(e, inputs);
  }

  lemma {:induction false} PiHasPower(e: Eeprom, inputs: seq<Input>)
    ensures After(e, inputs).state == PiBoot || After(e, inputs).state == Run ==> (After(e, inputs).relays.pi <==> !TakenOff(e, inputs))
  {
    hide Moved, Interpret, Heard;
    if inputs != [] {
      var s, input := After(e, Prefix(inputs)), Last(inputs);
      PiHasPower(e, Prefix(inputs));
      assert After(e, inputs) == Pass(s, input);
      if s.power.Awake? {
        PassPowersPi(s, input, TakenOff(e, Prefix(inputs)));
        MovedStateStays(s, input);
      } else {
        NothingHeard(s, input);
      }
    }
  }

  lemma NothingHeard(s: Supply, input: Input)
    requires !s.power.Awake?
    ensures Heard(s, input) == None && Pass(s, input) == s
  {
  }

  // ------------------------------------------------------- seconds of a state

  /** The seconds counted since the present state was entered; '$' begins
      POWEROFF anew. */
  function SecondsIn(e: Eeprom, inputs: seq<Input>): nat {
    if inputs == [] then 0
    else
      var s, input := After(e, Prefix(inputs)), Last(inputs);
      if !s.power.Awake? then SecondsIn(e, Prefix(inputs))
      else if Moved(s, input).state != s.state || Heard(s, input) == Some('$') then 0
      else SecondsIn(e, Prefix(inputs)) + (if SecondDue(s, input) then 1 else 0)
  }

  function Now(s: Supply, input: Input): nat { if SecondDue(s, input) then 1 else 0 }

  function Remaining(owed: nat, seconds: nat): nat { if seconds < owed then owed - seconds else 0 }

  /** The '+' heard since PIBOOT was entered. */
  function Pluses(e: Eeprom, inputs: seq<Input>): nat {
    if inputs == [] then 0
    else
      var s, input := After(e, Prefix(inputs)), Last(inputs);
      if !s.power.Awake? then Pluses(e, Prefix(inputs))
      else
        (if Moved(s, input).state == PiBoot && s.state != PiBoot then 0 else Pluses(e, Prefix(inputs)))
        + (if Heard(s, input) == Some('+') && Moved(s, input).state == PiBoot then 1 else 0)
  }

  lemma PassBoot(s: Supply, input: Input)
    requires s.power.Awake?
    ensures var t := Pass(s, input); t.state == PiBoot ==>
      && Moved(s, input).state == PiBoot && Heard(s, input) != Some('$')
      && t.timers.boot == (if s.state == PiBoot then Remaining(s.timers.boot, Now(s, input)) else 60)
      && var counted := if s.state == PiBoot then s.bootAlive else 0;
         t.bootAlive == if Heard(s, input) == Some('+') && counted < 255 then counted + 1 else counted
  {
    hide CountBattery, NewSettings, NewLimit, NewAlive, NewRelays;
  }

  /** In PIBOOT its timer holds what is left of 60 seconds, its counter the
      '+' heard. */
  lemma {:induction false} BootCounts(e: Eeprom, inputs: seq<Input>)
    ensures var s := After(e, inputs); s.state == PiBoot ==>
      && s.timers.boot == Remaining(60, SecondsIn(e, inputs))
      && s.bootAlive == if Pluses(e, inputs) < 255 then Pluses(e, inputs) else 255
  {
    hide Moved, Interpret, Heard;
    if inputs != [] {
      var s, input := After(e, Prefix(inputs)), Last(inputs);
      BootCounts(e, Prefix(inputs));
      assert After(e, inputs) == Pass(s, input);
      if s.power.Awake? {
        PassBoot(s, input);
      }
    }
  }

  /** PIBOOT ends exactly with its 60th second or the pass after the second
      '+': in RUN while the ignition is on, else in a POWEROFF of 15 seconds. */
  lemma {:induction false} BootEndsExactly(e: Eeprom, inputs: seq<Input>, input: Input)
    requires var s := After(e, inputs); s.power.Awake? && s.state == PiBoot
    ensures var s := After(e, inputs); var m := Moved(s, input);
      && (m.state != PiBoot <==> SecondsIn(e, inputs) + Now(s, input) >= 60 || Pluses(e, inputs) >= 2)
      && (m.state != PiBoot ==>
            if Kl15On(Timed(s, input).clock, input.kl15) then m.state == Run
            else m.state == PowerOff && m.timers.powerOff == 15)
  {
    hide After, CountBattery, SecondsIn, Pluses;
    BootCounts(e, inputs);
  }

  // -------------------------------------------------------------------- IDLE

  /** How long IDLE lasts before the supply sleeps: 30 seconds after the
      start, 2 after a power-on given up, else none. */
  function IdleOwed(e: Eeprom, inputs: seq<Input>): nat {
    if inputs == [] then 30
    else
      var s, input := After(e, Prefix(inputs)), Last(inputs);
      if s.power.Awake? && s.state != Idle && Moved(s, input).state == Idle then (if s.state == PowerOn then 2 else 0)
      else IdleOwed(e, Prefix(inputs))
  }

  lemma PassIdle(s: Supply, input: Input)
    requires s.power.Awake?
    ensures var t := Pass(s, input); t.state == Idle ==>
      && Moved(s, input).state == Idle && Heard(s, input) != Some('$')
      && t.timers.idle == if s.state == Idle then Remaining(s.timers.idle, Now(s, input)) else if s.state == PowerOn then 2 else 0
  {
    hide CountBattery, NewSettings, NewLimit, NewAlive, NewRelays;
  }

  lemma {:induction false} IdleCounts(e: Eeprom, inputs: seq<Input>)
    ensures var s := After(e, inputs); s.state == Idle ==> s.timers.idle == Remaining(IdleOwed(e, inputs), SecondsIn(e, inputs))
  {
    hide Moved, Interpret, Heard;
    if inputs != [] {
      var s, input := After(e, Prefix(inputs)), Last(inputs);
      IdleCounts(e, Prefix(inputs));
      assert After(e, inputs) == Pass(s, input);
      if s.power.Awake? {
        PassIdle(s, input);
      }
    }
  }

  /** IDLE goes on to POWERON exactly with the ignition on and no lock, and the
      supply falls asleep exactly with it off, no lock and its seconds over. */
  lemma {:induction false} IdleEndsExactly(e: Eeprom, inputs: seq<Input>, input: Input)
    requires var s := After(e, inputs); s.power.Awake? && s.state == Idle
    ensures var s := After(e, inputs); var m := Moved(s, input); var t := Timed(s, input);
      && (m.state == PowerOn <==> !t.battery.locked && Kl15On(t.clock, input.kl15))
      && (m.power.Asleep? <==>
            !t.battery.locked && !Kl15On(t.clock, input.kl15) && SecondsIn(e, inputs) + Now(s, input) >= IdleOwed(e, inputs))
      && (m.state == Idle || m.state == PowerOn) && (m.power.Awake? || m.power.Asleep?)
  {
    hide After, CountBattery, SecondsIn, IdleOwed;
    IdleCounts(e, inputs);
  }

  // ---------------------------------------------------------------- POWEROFF

  /** How long POWEROFF lasts at most: 5 seconds after the watchdog, else 15. */
  function OffOwed(e: Eeprom, inputs: seq<Input>): nat {
    if inputs == [] then 15
    else
      var s, input := After(e, Prefix(inputs)), Last(inputs);
      if Heard(s, input) == Some('$') then 15
      else if s.power.Awake? && s.state != PowerOff && Moved(s, input).state == PowerOff then
        if s.state == Run && Timed(s, input).alive == 0 then 5 else 15
      else OffOwed(e, Prefix(inputs))
  }

  /** The Pi has said, on Dig3, that it is down. */
  predicate PiIsDown(e: Eeprom, inputs: seq<Input>) {
    inputs != [] &&
    var s, input := After(e, Prefix(inputs)), Last(inputs);
    if !s.power.Awake? then PiIsDown(e, Prefix(inputs))
    else s.state == PowerOff && Heard(s, input) != Some('$') && (input.dig3 || PiIsDown(e, Prefix(inputs)))
  }

  lemma PassOff(s: Supply, input: Input)
    requires s.power.Awake?
    ensures var t, m := Pass(s, input), Moved(s, input);
      t.state == PowerOff ==>
        t.timers.powerOff ==
          if Heard(s, input) == Some('$') then 15
          else if s.state != PowerOff then (if s.state == Run && Timed(s, input).alive == 0 then 5 else 15)
          else if input.dig3 then 0 else Remaining(s.timers.powerOff, Now(s, input))
    ensures Pass(s, input).state == PowerOff && Heard(s, input) != Some('$') ==> Moved(s, input).state == PowerOff
  {
    hide CountBattery, NewSettings, NewLimit, NewAlive, NewRelays;
  }

  lemma {:induction false} OffCounts(e: Eeprom, inputs: seq<Input>)
    ensures var s := After(e, inputs); s.state == PowerOff ==>
      s.timers.powerOff == if PiIsDown(e, inputs) then 0 else Remaining(OffOwed(e, inputs), SecondsIn(e, inputs))
  {
    hide Moved, Interpret, Timed;
    if inputs != [] {
      var s, input := After(e, Prefix(inputs)), Last(inputs);
      OffCounts(e, Prefix(inputs));
      assert After(e, inputs) == Pass(s, input);
      if s.power.Awake? {
        PassOff(s, input);
      }
    }
  }

  /** POWEROFF ends exactly with its seconds over or after Dig3: in IDLE with
      every relay off. */
  lemma {:induction false} OffEndsExactly(e: Eeprom, inputs: seq<Input>, input: Input)
    requires var s := After(e, inputs); s.power.Awake? && s.state == PowerOff
    ensures var s := After(e, inputs); var m := Moved(s, input);
      && (m.state != PowerOff <==> PiIsDown(e, inputs) || SecondsIn(e, inputs) + Now(s, input) >= OffOwed(e, inputs))
      && (m.state != PowerOff ==> m.state == Idle && m.relays == Relays(false, false, false))
  {
    hide After, CountBattery, SecondsIn, OffOwed, PiIsDown;
    OffCounts(e, inputs);
  }

  // --------------------------------------------------------------------- RUN

  /** RUN ends exactly by the watchdog, the ignition or the battery. */
  lemma {:induction false} RunEndsExactly(e: Eeprom, inputs: seq<Input>, input: Input)
    requires var s := After(e, inputs); s.power.Awake? && s.state == Run
    ensures var s := After(e, inputs); var m := Moved(s, input); var beats := WithSecond(Beats(e, inputs), s, input);
      var starved := exists j :: 0 <= j <= |beats| && Balance(beats[j..]) <= -3;
      && (m.state != Run <==> starved || !Kl15On(Timed(s, input).clock, input.kl15) || BatteryTrips(s, input))
      && (m.state != Run ==> m.state == PowerOff && m.timers.powerOff == if starved then 5 else 15)
  {
    hide After, Beats, Balance;
    AlwaysInRange(e, inputs);
    WatchdogFiresExactly(e, inputs, input);
    FiresAtZero(After(e, inputs), input);
    RunEnds(After(e, inputs), input);
  }

  lemma RunEnds(s: Supply, input: Input)
    requires s.power.Awake? && s.state == Run && LockOnlyWhenOff(s)
    ensures var m := Moved(s, input); var starved := Timed(s, input).alive == 0;
      && (m.state != Run <==> starved || !Kl15On(Timed(s, input).clock, input.kl15) || BatteryTrips(s, input))
      && (m.state != Run ==> m.state == PowerOff && m.timers.powerOff == if starved then 5 else 15)
  {
    hide CountTimers;
  }

  // ----------------------------------------------------------------- POWERON

  /** The ignition is on, and no byte comes. */
  predicate Lit(input: Input) {
    input.kl15AtTick && input.kl15AtSecond && input.kl15 && input.received.Nothing?
  }

  /** POWERON ends exactly with the ignition off, in an IDLE of 2 seconds with
      the display off, or with its delay waited, in a PIBOOT of 60 seconds. */
  lemma PowerOnEndsExactly(s: Supply, input: Input)
    requires s.power.Awake? && s.state == PowerOn && DelayFits(s)
    ensures var m, on := Moved(s, input), Kl15On(Timed(s, input).clock, input.kl15);
      var waited := if s.timers.powerOn < s.settings.powerOnTime then s.timers.powerOn + Now(s, input) else s.timers.powerOn;
      && (m.state == Idle <==> !on)
      && (m.state == PiBoot <==> on && waited == s.settings.powerOnTime)
      && (m.state == PowerOn <==> on && waited < s.settings.powerOnTime)
      && m.timers.powerOn == (if m.state == PowerOn then waited else 0)
      && (m.state == Idle ==> m.timers.idle == 2 && !m.relays.display)
  {
    hide CountBattery;
  }

  lemma WaitsOn(s: Supply, input: Input)
    requires s.power.Awake? && s.state == PowerOn && s.timers.powerOn < s.settings.powerOnTime && Lit(input)
    ensures var t := Pass(s, input);
      && t == Moved(s, input) && t.settings == s.settings && t.power.Awake?
      && (if s.timers.powerOn + Now(s, input) < s.settings.powerOnTime then
            t.state == PowerOn && t.timers.powerOn == s.timers.powerOn + Now(s, input) && t.relays == s.relays
          else t.state == PiBoot && t.relays == s.relays.(pi := true) && t.timers.boot == 60 && t.bootAlive == 0)
  {
    hide CountBattery;
  }

  /** While the delay is not waited, POWERON goes on and counts it. */
  lemma {:induction false} DelayIsWaited(s: Supply, lit: seq<Input>)
    requires s.power.Awake? && s.state == PowerOn && s.timers.powerOn < s.settings.powerOnTime
    requires forall i :: 0 <= i < |lit| ==> Lit(lit[i])
    requires s.timers.powerOn + Seconds(s, lit) < s.settings.powerOnTime
    ensures var t := Passes(s, lit);
      && t.power.Awake? && t.state == PowerOn && t.relays == s.relays && t.settings == s.settings
      && t.timers.powerOn == s.timers.powerOn + Seconds(s, lit)
  {
    hide Pass, Lit, SecondDue;
    if lit != [] {
      DelayIsWaited(s, Prefix(lit));
      WaitsOn(Passes(s, Prefix(lit)), Last(lit));
    }
  }

  /** With its last second PIBOOT is entered and the Pi gets its power. */
  lemma {:induction false} DelayIsOver(s: Supply, lit: seq<Input>)
    requires s.power.Awake? && s.state == PowerOn && s.timers.powerOn < s.settings.powerOnTime && lit != []
    requires forall i :: 0 <= i < |lit| ==> Lit(lit[i])
    requires s.timers.powerOn + Seconds(s, Prefix(lit)) + 1 == s.settings.powerOnTime == s.timers.powerOn + Seconds(s, lit)
    ensures Passes(s, lit).state == PiBoot && Passes(s, lit).relays == s.relays.(pi := true)
  {
    hide Pass, Lit, SecondDue;
    DelayIsWaited(s, Prefix(lit));
    WaitsOn(Passes(s, Prefix(lit)), Last(lit));
  }

  /** The first pass with `k` seconds counted. */
  lemma {:induction false} SecondIsReached(s: Supply, inputs: seq<Input>, k: nat)
    requires 0 < k <= Seconds(s, inputs)
    ensures exists n :: 0 < n <= |inputs| && Seconds(s, inputs[..n]) == k && Seconds(s, Prefix(inputs[..n])) == k - 1
    decreases |inputs|
  {
    hide Pass, Passes, SecondDue;
    if Seconds(s, Prefix(inputs)) >= k {
      SecondIsReached(s, Prefix(inputs), k);
      var n :| 0 < n <= |Prefix(inputs)| && Seconds(s, Prefix(inputs)[..n]) == k && Seconds(s, Prefix(Prefix(inputs)[..n])) == k - 1;
      assert Prefix(inputs)[..n] == inputs[..n];
    } else {
      assert inputs[..|inputs|] == inputs;
    }
  }

  /** From POWERON with the ignition on and no byte: the Pi has its power, in
      PIBOOT, with the second in which the delay is waited, and not before. */
  lemma {:induction false} PiBootsInTime(s: Supply, lit: seq<Input>)
    requires s.power.Awake? && s.state == PowerOn && s.timers.powerOn < s.settings.powerOnTime && s.clock.ms <= 1000
    requires forall i :: 0 <= i < |lit| ==> Lit(lit[i])
    requires LongEnough(s, lit, s.settings.powerOnTime - s.timers.powerOn)
    ensures exists n :: 0 < n <= |lit| && BootsAt(s, lit, n)
  {
    hide Pass, Passes, Seconds, SecondDue, Ticks;
    var left := s.settings.powerOnTime - s.timers.powerOn;
    if Seconds(s, lit) < left {
      DelayIsWaited(s, lit);
      TicksMakeSeconds(s, lit);
    } else {
      SecondIsReached(s, lit, left);
      var n :| 0 < n <= |lit| && Seconds(s, lit[..n]) == left && Seconds(s, Prefix(lit[..n])) == left - 1;
      DelayIsOver(s, lit[..n]);
      DelayIsWaited(s, Prefix(lit[..n]));
      BootsThen(s, lit, n);
    }
  }

  ghost predicate BootsAt(s: Supply, lit: seq<Input>, n: nat)
    requires 0 < n <= |lit|
  {
    var before, t := Passes(s, lit[..n - 1]), Passes(s, lit[..n]);
    && before.state == PowerOn && before.timers.powerOn + 1 == s.settings.powerOnTime
    && t.state == PiBoot && t.relays == s.relays.(pi := true)
  }

  lemma BootsThen(s: Supply, lit: seq<Input>, n: nat)
    requires 0 < n <= |lit|
    requires var before, t := Passes(s, Prefix(lit[..n])), Passes(s, lit[..n]);
      && before.state == PowerOn && before.timers.powerOn + 1 == s.settings.powerOnTime
      && t.state == PiBoot && t.relays == s.relays.(pi := true)
    ensures BootsAt(s, lit, n)
  {
    hide Pass, Passes;
    assert Prefix(lit[..n]) == lit[..n - 1];
  }

  /** And there from IDLE in one pass, with the display on. */
  lemma IgnitionPowersOn(s: Supply, input: Input)
    requires s.power.Awake? && s.state == Idle && !s.battery.locked && Lit(input)
    ensures var t := Pass(s, input);
      && t.power.Awake? && t.state == PowerOn && t.relays == s.relays.(display := true)
      && t.timers.powerOn == s.timers.powerOn && t.settings == s.settings
  {
    hide Kl15On, CountTimers;
    assert Kl15On(Timed(s, input).clock, true) by { PinIsOn(Timed(s, input).clock); }
    IdleKeepsDelay(s, input);
  }

  lemma PinIsOn(clock: Clock)
    ensures Kl15On(clock, true)
  {
  }

  lemma IdleKeepsDelay(s: Supply, input: Input)
    requires s.state == Idle
    ensures Timed(s, input).timers.powerOn == s.timers.powerOn
  {
  }

  /** From IDLE with the delay ahead and no lock: display and Pi are on within
      the delay's seconds and one more. */
  lemma {:induction false} IgnitionBootsPi(s: Supply, lit: seq<Input>)
    requires s.power.Awake? && s.state == Idle && !s.battery.locked && InRange(s) && s.timers.powerOn < s.settings.powerOnTime
    requires lit != [] && forall i :: 0 <= i < |lit| ==> Lit(lit[i])
    requires LongEnough(s, lit, s.settings.powerOnTime - s.timers.powerOn + 1)
    ensures exists n :: 0 <= n <= |lit| && BothOn(s, Passes(s, lit[..n]))
  {
    hide Pass, Passes, Seconds, Ticks, InRange, Lit;
    var on, rest := lit[0], lit[1..];
    assert [on] + rest == lit && Lit(on);
    IgnitionPowersOn(s, on);
    OneMore(s, on);
    OneTickLess(s, lit);
    assert forall i :: 0 <= i < |rest| ==> Lit(rest[i]);
    PiBootsInTime(Pass(s, on), rest);
    var n :| 0 < n <= |rest| && BootsAt(Pass(s, on), rest, n);
    assert lit[..n + 1] == [on] + rest[..n];
    PassesJoin(s, [on], rest[..n]);
    assert BothOn(s, Passes(s, lit[..n + 1]));
  }

  predicate BothOn(s: Supply, t: Supply) {
    t.state == PiBoot && t.relays == s.relays.(display := true, pi := true)
  }

  lemma {:induction false} OneTickLess(s: Supply, inputs: seq<Input>)
    requires InRange(s) && s.power.Awake? && inputs != []
    ensures var t := Pass(s, inputs[0]); t.clock.ms <= 1000 && Ticks(inputs) <= Ticks(inputs[1..]) + 1
    ensures forall rank: nat :: LongEnough(s, inputs, rank + 1) ==> LongEnough(Pass(s, inputs[0]), inputs[1..], rank)
  {
    hide Moved, Interpret, Pass, Timed, SecondDue;
    PassClock(s, inputs[0]);
    TimedMs(s, inputs[0]);
    TicksSplit(inputs);
  }

  lemma TimedMs(s: Supply, input: Input)
    requires s.clock.ms <= 1000
    ensures Timed(s, input).clock.ms <= 1000
  {
  }

  lemma {:induction false} TicksSplit(inputs: seq<Input>)
    requires inputs != []
    ensures Ticks(inputs) == (if inputs[0].tick then 1 else 0) + Ticks(inputs[1..])
    decreases |inputs|
  {
    if |inputs| > 1 {
      TicksSplit(Prefix(inputs));
      assert Prefix(inputs)[1..] == Prefix(inputs[1..]);
    } else {
      assert Prefix(inputs) == [] == inputs[1..];
    }
  }

  // ---------------------------------------------------------------- settings

  predicate IsDigit(b: Byte) { 48 <= b <= 57 }

  predicate ThreeDigits(arguments: seq<Byte>) {
    |arguments| >= 3 && IsDigit(arguments[0]) && IsDigit(arguments[1]) && IsDigit(arguments[2])
  }

  function InTenths(arguments: seq<Byte>): int
    requires ThreeDigits(arguments)
  {
    var hundreds: int, tens: int, ones: int := arguments[0], arguments[1], arguments[2];
    100 * (hundreds - 48) + 10 * (tens - 48) + (ones - 48)
  }

  /** A battery limit of 9.0 to 14.0 volts, or none. */
  predicate IsLimitAllowed(limit: int) { limit == 0 || 90 <= limit <= 140 }

  /** The power-on delay: the one last set by '*' and a digit from 1 to 9, at
      first the stored one if that is from 1 to 9, else 3. */
  function Delay(e: Eeprom, inputs: seq<Input>): int {
    if inputs == [] then (if 1 <= e.powerOnTime <= 9 then e.powerOnTime else 3)
    else
      var s, input := After(e, Prefix(inputs)), Last(inputs);
      if Heard(s, input) == Some('*') && input.received.arguments != [] && 49 <= input.received.arguments[0] <= 57 then
        input.received.arguments[0] - 48
      else Delay(e, Prefix(inputs))
  }

  /** The battery limit: the one last set by 'B', at first a stored one. */
  function Limit(e: Eeprom, inputs: seq<Input>): int {
    if inputs == [] then (if e.layout == 2 && IsLimitAllowed(e.limit) then e.limit else 118)
    else
      var s, input := After(e, Prefix(inputs)), Last(inputs);
      var arguments := if input.received.Command? then input.received.arguments else [];
      if Heard(s, input) == Some('B') && ThreeDigits(arguments) && IsLimitAllowed(InTenths(arguments)) then InTenths(arguments)
      else Limit(e, Prefix(inputs))
  }

  /** Service mode between '!' and '?'. */
  predicate Service(e: Eeprom, inputs: seq<Input>) {
    inputs != [] &&
    var s, input := After(e, Prefix(inputs)), Last(inputs);
    Heard(s, input) == Some('!') || (Heard(s, input) != Some('?') && Service(e, Prefix(inputs)))
  }

  /** Debug messages, turned over by '#'. */
  predicate Debugs(e: Eeprom, inputs: seq<Input>) {
    if inputs == [] then e.layout == 2 && e.debug == 1
    else Debugs(e, Prefix(inputs)) <==> Heard(After(e, Prefix(inputs)), Last(inputs)) != Some('#')
  }

  /** What is in force, and stored. */
  predicate InForce(s: Supply, delay: int, limit: int, service: bool, debugs: bool) {
    && s.settings.powerOnTime == delay && s.battery.limit == limit
    && s.settings.serviceMode == service && s.settings.debug == debugs
    && s.settings.eeprom == Eeprom(if debugs then 1 else 0, s.settings.eeprom.powerOnTime, 2, s.settings.eeprom.limit)
    && s.settings.eeprom.powerOnTime == delay && s.settings.eeprom.limit == limit
  }

  lemma MovedKeepsSettings(s: Supply, input: Input)
    ensures Moved(s, input).settings == s.settings && Moved(s, input).battery.limit == s.battery.limit
  {
    hide CountTimers;
  }

  lemma InterpretSets(m: Supply, r: Received, delay: int, limit: int, service: bool, debugs: bool)
    requires InForce(m, delay, limit, service, debugs) && r.Command?
    ensures InForce(Interpret(m, r),
      if r.command == '*' && r.arguments != [] && 49 <= r.arguments[0] <= 57 then r.arguments[0] - 48 else delay,
      if r.command == 'B' && ThreeDigits(r.arguments) && IsLimitAllowed(InTenths(r.arguments)) then InTenths(r.arguments) else limit,
      r.command == '!' || (r.command != '?' && service),
      debugs <==> r.command != '#')
  {
    hide NewAlive, NewRelays;
  }

  /** Over all runs the settings are those last commanded, and stored. */
  lemma {:induction false} SettingsAreLatest(e: Eeprom, inputs: seq<Input>)
    ensures InForce(After(e, inputs), Delay(e, inputs), Limit(e, inputs), Service(e, inputs), Debugs(e, inputs))
  {
    hide Moved, Interpret, InForce;
    if inputs == [] {
      StartSettings(e);
    } else {
      var s, input := After(e, Prefix(inputs)), Last(inputs);
      SettingsAreLatest(e, Prefix(inputs));
      assert After(e, inputs) == Pass(s, input);
      if s.power.Awake? {
        MovedInForce(s, input, Delay(e, Prefix(inputs)), Limit(e, Prefix(inputs)), Service(e, Prefix(inputs)), Debugs(e, Prefix(inputs)));
        if Heard(s, input).Some? {
          InterpretSets(Moved(s, input), input.received,
            Delay(e, Prefix(inputs)), Limit(e, Prefix(inputs)), Service(e, Prefix(inputs)), Debugs(e, Prefix(inputs)));
        } else if Moved(s, input).power.Awake? {
          SilentInterpret(Moved(s, input), input.received);
        }
      }
    }
  }

  lemma SilentInterpret(m: Supply, r: Received)
    requires r.Nothing?
    ensures Interpret(m, r) == m
  {
  }

  lemma MovedInForce(s: Supply, input: Input, delay: int, limit: int, service: bool, debugs: bool)
    requires InForce(s, delay, limit, service, debugs)
    ensures InForce(Moved(s, input), delay, limit, service, debugs)
  {
    hide Moved;
    MovedKeepsSettings(s, input);
  }

  lemma StartSettings(e: Eeprom)
    ensures InForce(Start(e), Delay(e, []), Limit(e, []), false, e.layout == 2 && e.debug == 1)
  {
  }

  /** And they survive a restart: what was in force at the end of a run is
      loaded again by the next, but for the service mode. */
  lemma {:induction false} SettingsSurvive(e: Eeprom, inputs: seq<Input>)
    ensures var s := After(e, inputs); var again := Start(s.settings.eeprom);
      && again.settings.powerOnTime == s.settings.powerOnTime && again.battery.limit == s.battery.limit
      && again.settings.debug == s.settings.debug && again.settings.eeprom == s.settings.eeprom
      && !again.settings.serviceMode
  {
    hide After, Heard;
    SettingsAreLatest(e, inputs);
    LimitIsAllowed(e, inputs);
    AlwaysInRange(e, inputs);
    StartSettings(After(e, inputs).settings.eeprom);
  }

  lemma {:induction false} LimitIsAllowed(e: Eeprom, inputs: seq<Input>)
    ensures IsLimitAllowed(Limit(e, inputs))
  {
    hide After, Heard;
    if inputs != [] {
      LimitIsAllowed(e, Prefix(inputs));
    }
  }
}
