/** When the Raspberry Pi loses its power, and that the supply always goes to
    sleep in the end. */
module SupplyPower {
  import opened SupplyModel
  import opened SupplyRuns
  import opened SupplyCounting

  // ------------------------------------------------------- what the Pi may send

  predicate Powered(state: State) {
    state == PiBoot || state == Run || state == PowerOff
  }

  /** Relays are switched on only from PIBOOT to POWEROFF, when the Pi is the
      one that talks. */
  predicate SwitchesWhenPowered(m: Supply, r: Received) {
    r.Command? && r.command in {'1', '2', '3'} ==> Powered(m.state)
  }

  /** '*' does not set the power-on delay below the seconds already waited. */
  predicate KeepsDelay(m: Supply, r: Received) {
    r.Command? && r.command == '*' ==> m.timers.powerOn <= NewPowerOnTime(m.settings.eeprom.powerOnTime, r.arguments)
  }

  /** Both held in every pass that came to a received byte. */
  predicate Disciplined(e: Eeprom, inputs: seq<Input>) {
    inputs == [] ||
    (Disciplined(e, Prefix(inputs)) &&
     var s := After(e, Prefix(inputs));
     var m := Moved(s, Last(inputs));
     (s.power.Awake? && m.power.Awake? ==>
        SwitchesWhenPowered(m, Last(inputs).received) && KeepsDelay(m, Last(inputs).received)))
  }

  predicate RelaysFit(s: Supply) {
    && (s.state == Idle ==> s.relays == OFF)
    && (s.state == PowerOn ==> !s.relays.pi && !s.relays.amplifier)
  }

  predicate DelayFits(s: Supply) {
    s.timers.powerOn <= s.settings.powerOnTime
  }

  predicate HaltedOff(s: Supply) {
    (s.power.Asleep? ==> s.state == Idle) && (s.power.Bootloader? ==> s.state == Idle || s.state == PowerOn)
  }

  predicate Good(s: Supply) {
    InRange(s) && LockOnlyWhenOff(s) && RelaysFit(s) && DelayFits(s) && HaltedOff(s)
  }

  lemma MovedFits(s: Supply, input: Input)
    requires s.power.Awake? && RelaysFit(s)
    ensures var m := Moved(s, input);
      RelaysFit(m) && HaltedOff(m) && m.settings == s.settings && (DelayFits(s) ==> DelayFits(m))
  {
    hide CountBattery;
  }

  lemma MovedKeepsDelay(s: Supply, input: Input)
    requires s.power.Awake? && DelayFits(s)
    ensures DelayFits(Moved(s, input))
  {
    hide CountBattery;
  }

  lemma InterpretFits(m: Supply, r: Received)
    requires m.power.Awake? && RelaysFit(m) && SwitchesWhenPowered(m, r)
    ensures RelaysFit(Interpret(m, r)) && HaltedOff(Interpret(m, r))
    ensures DelayFits(m) && KeepsDelay(m, r) ==> DelayFits(Interpret(m, r))
  {
    hide NewLimit, NewAlive, NewPowerOnTime, IsLimit, LimitOf, ValidLimit;
  }

  lemma {:induction false} DisciplinedIsGood(e: Eeprom, inputs: seq<Input>)
    requires Disciplined(e, inputs)
    ensures Good(After(e, inputs))
  {
    hide InRange, LockOnlyWhenOff, Moved, Interpret, SwitchesWhenPowered, KeepsDelay, RelaysFit, DelayFits, HaltedOff;
    AlwaysInRange(e, inputs);
    if inputs == [] {
      StartFits(e);
    } else {
      var s, input := After(e, Prefix(inputs)), Last(inputs);
      DisciplinedIsGood(e, Prefix(inputs));
      assert After(e, inputs) == Pass(s, input);
      if s.power.Awake? {
        MovedFits(s, input);
        if Moved(s, input).power.Awake? {
          InterpretFits(Moved(s, input), input.received);
        }
      }
    }
  }

  lemma StartFits(e: Eeprom)
    ensures RelaysFit(Start(e)) && DelayFits(Start(e)) && HaltedOff(Start(e))
  {
  }

  /** Relay commands as they should be, whatever '*' sets. */
  predicate Switching(e: Eeprom, inputs: seq<Input>) {
    inputs == [] ||
    (Switching(e, Prefix(inputs)) &&
     var s := After(e, Prefix(inputs));
     var m := Moved(s, Last(inputs));
     (s.power.Awake? && m.power.Awake? ==> SwitchesWhenPowered(m, Last(inputs).received)))
  }

  lemma {:induction false} RelaysAlwaysFit(e: Eeprom, inputs: seq<Input>)
    requires Switching(e, inputs)
    ensures RelaysFit(After(e, inputs)) && HaltedOff(After(e, inputs))
  {
    hide Moved, Interpret, SwitchesWhenPowered, KeepsDelay, RelaysFit, DelayFits, HaltedOff;
    if inputs == [] {
      StartFits(e);
    } else {
      var s, input := After(e, Prefix(inputs)), Last(inputs);
      RelaysAlwaysFit(e, Prefix(inputs));
      assert After(e, inputs) == Pass(s, input);
      if s.power.Awake? {
        MovedFits(s, input);
        if Moved(s, input).power.Awake? {
          InterpretFits(Moved(s, input), input.received);
        }
      }
    }
  }

  /** A '2' that came in IDLE or POWERON still holds: no '5' took it back and
      the Pi was not powered in between. */
  predicate Stray(e: Eeprom, inputs: seq<Input>) {
    inputs != [] &&
    var s, input := After(e, Prefix(inputs)), Last(inputs);
    var m := Moved(s, input);
    if !s.power.Awake? then Stray(e, Prefix(inputs))
    else if m.power.Awake? && !Powered(m.state) && input.received.Command? && input.received.command in {'2', '5'} then
      input.received.command == '2'
    else !Powered(s.state) && !Powered(m.state) && Stray(e, Prefix(inputs))
  }

  /** In IDLE and POWERON only a stray '2' has the Pi's relay on. */
  predicate RelayIsStray(s: Supply, stray: bool) {
    HaltedOff(s) && (!Powered(s.state) ==> (s.relays.pi <==> stray))
  }

  lemma MovedStray(s: Supply, input: Input, stray: bool)
    requires s.power.Awake? && RelayIsStray(s, stray)
    ensures RelayIsStray(Moved(s, input), !Powered(s.state) && stray)
  {
    hide CountBattery, CountTimers;
  }

  lemma InterpretStray(m: Supply, r: Received, stray: bool)
    requires m.power.Awake? && RelayIsStray(m, stray)
    ensures RelayIsStray(Interpret(m, r),
                         if !Powered(m.state) && r.Command? && r.command in {'2', '5'} then r.command == '2' else stray)
  {
    hide NewLimit, NewAlive, NewSettings;
  }

  lemma {:induction false} StrayIsRelay(e: Eeprom, inputs: seq<Input>)
    ensures RelayIsStray(After(e, inputs), Stray(e, inputs))
  {
    hide Moved, Interpret, Powered, HaltedOff;
    if inputs == [] {
      StartFits(e);
    } else {
      var s, input := After(e, Prefix(inputs)), Last(inputs);
      StrayIsRelay(e, Prefix(inputs));
      assert After(e, inputs) == Pass(s, input);
      if s.power.Awake? {
        var m := Moved(s, input);
        MovedStray(s, input, Stray(e, Prefix(inputs)));
        if m.power.Awake? {
          InterpretStray(m, input.received, !Powered(m.state) && !Powered(s.state) && Stray(e, Prefix(inputs)));
        }
      }
    }
  }

  /** The reset into the bootloader and the sleep both drop every relay. Over
      all runs they cut the Pi off exactly if a stray '2' still holds. */
  lemma {:induction false} CutsOffExactly(e: Eeprom, inputs: seq<Input>)
    requires !After(e, inputs).power.Awake?
    ensures After(e, inputs).relays.pi <==> Stray(e, inputs)
  {
    hide After, Stray;
    StrayIsRelay(e, inputs);
  }

  lemma {:induction false} SwitchingNeverStrays(e: Eeprom, inputs: seq<Input>)
    requires Switching(e, inputs)
    ensures !Stray(e, inputs)
  {
    hide After, Moved;
    if inputs != [] {
      SwitchingNeverStrays(e, Prefix(inputs));
    }
  }

  /** So with the relay commands where they belong, they never do. */
  lemma {:induction false} PiIsOffWhenHalted(e: Eeprom, inputs: seq<Input>)
    requires Switching(e, inputs) && !After(e, inputs).power.Awake?
    ensures !After(e, inputs).relays.pi
  {
    hide After, Switching, Stray;
    SwitchingNeverStrays(e, inputs);
    CutsOffExactly(e, inputs);
  }

  /** A run in which a stray '2' in IDLE lets 'U' cut the Pi off. */
  lemma StrayRelayCommandCutsOff()
    ensures exists e, inputs :: After(e, inputs).power.Bootloader? && After(e, inputs).relays.pi
  {
    var e := Eeprom(0, 3, 2, 118);
    var on := Input(false, false, false, false, 120, false, Command('2', []));
    var reset := on.(received := Command('U', []));
    assert Prefix([on]) == [] && Prefix([on, reset]) == [on];
    var s1 := Pass(Start(e), on);
    assert After(e, [on]) == s1 && s1.state == Idle && s1.relays.pi;
    var s2 := Pass(s1, reset);
    assert After(e, [on, reset]) == s2 && s2.power.Bootloader? && s2.relays.pi;
  }

  // -------------------------------------------------------- the Pi's shut down

  /** Since POWEROFF was last entered: its seconds, how many it owes the Pi
      (5 after the watchdog, else 15), and whether Dig3 was seen. */
  datatype Watch = Watch(seconds: nat, owed: nat, dig3: bool)

  function Watched(e: Eeprom, inputs: seq<Input>): Watch {
    if inputs == [] then Watch(0, 15, false) else
      var s, input := After(e, Prefix(inputs)), Last(inputs);
      var w := Watched(e, Prefix(inputs));
      if !s.power.Awake? then w
      else if s.state != PowerOff || Moved(s, input).state != PowerOff then
        Watch(0, if s.state == Run && Timed(s, input).alive == 0 then 5 else 15, false)
      else Watch(w.seconds + (if SecondDue(s, input) then 1 else 0), w.owed, w.dig3 || input.dig3)
  }

  predicate Owes(s: Supply, w: Watch) {
    w.owed <= 15 && (s.state == PowerOff ==> w.dig3 || s.timers.powerOff + w.seconds >= w.owed)
  }

  /** The timer of POWEROFF and the seconds it has seen add up. */
  lemma {:induction false} PowerOffTimeAddsUp(e: Eeprom, inputs: seq<Input>)
    ensures Owes(After(e, inputs), Watched(e, inputs))
  {
    if inputs != [] {
      var s, input := After(e, Prefix(inputs)), Last(inputs);
      PowerOffTimeAddsUp(e, Prefix(inputs));
      assert After(e, inputs) == Pass(s, input);
      if s.power.Awake? {
        PassPowerOff(s, input);
      }
    }
  }

  lemma PassPowerOff(s: Supply, input: Input)
    requires s.power.Awake?
    ensures var m, t := Moved(s, input), Pass(s, input);
      t.state == PowerOff ==>
        if s.state == PowerOff && m.state == PowerOff then
          t.timers.powerOff == 15 || input.dig3 ||
          t.timers.powerOff == if SecondDue(s, input) then Less(s.timers.powerOff) else s.timers.powerOff
        else t.timers.powerOff == 15 || (t.timers.powerOff == 5 && s.state == Run && Timed(s, input).alive == 0)
  {
    hide CountBattery, NewSettings, NewRelays, NewLimit, NewAlive;
  }

  /** The firmware takes the Pi's power away only in POWEROFF, and only after
      the seconds it owes the Pi or on Dig3 - unless told to with '5'. */
  lemma {:induction false} PiLosesPowerOnlyAfterItsTime(e: Eeprom, inputs: seq<Input>, input: Input)
    requires var s := After(e, inputs); s.power.Awake? && s.relays.pi && !Pass(s, input).relays.pi
    requires input.received != Nothing ==> input.received.command != '5'
    ensures var s, w := After(e, inputs), Watched(e, inputs);
      && s.state == PowerOff
      && (w.dig3 || w.seconds + (if SecondDue(s, input) then 1 else 0) >= w.owed)
  {
    var s := After(e, inputs);
    PowerOffTimeAddsUp(e, inputs);
    PiRelayDrops(s, input);
  }

  lemma PiRelayDrops(s: Supply, input: Input)
    requires s.power.Awake? && s.relays.pi && !Pass(s, input).relays.pi
    requires input.received != Nothing ==> input.received.command != '5'
    ensures s.state == PowerOff
    ensures (if SecondDue(s, input) then Less(s.timers.powerOff) else s.timers.powerOff) == 0
  {
    hide Moved, Interpret;
    InterpretKeepsPi(Moved(s, input), input.received);
    MovedDropsPi(s, input);
  }

  lemma InterpretKeepsPi(m: Supply, r: Received)
    requires r != Nothing ==> r.command != '5'
    ensures m.relays.pi ==> Interpret(m, r).relays.pi
  {
    hide NewSettings, NewLimit, NewAlive;
  }

  lemma MovedDropsPi(s: Supply, input: Input)
    requires s.relays.pi && !Moved(s, input).relays.pi
    ensures s.state == PowerOff
    ensures (if SecondDue(s, input) then Less(s.timers.powerOff) else s.timers.powerOff) == 0
  {
    hide CountBattery;
  }

  // ----------------------------------------------------------- going to sleep

  /** The ignition pin stays low and no byte comes. */
  predicate Quiet(input: Input) {
    !input.kl15AtTick && !input.kl15AtSecond && !input.kl15 && input.received.Nothing?
  }

  predicate Settled(s: Supply) {
    s.clock.kl15OffMs == KL15_OFF_DEBOUNCE_MS
  }

  /** With the ignition off, the seconds each state still takes. */
  function SettledRank(s: Supply): nat {
    match s.state
    case Idle => if s.battery.locked && s.timers.idle == 0 then 1 else s.timers.idle
    case PowerOn => 3
    case PowerOff => s.timers.powerOff + (if s.battery.locked then 1 else 0) + 1
    case Run => 17
    case PiBoot => s.timers.boot + 17
  }

  /** A second runs out before the debounce does. */
  predicate SecondComesFirst(s: Supply) {
    1001 - s.clock.ms <= KL15_OFF_DEBOUNCE_MS - s.clock.kl15OffMs
  }

  /** How many more seconds the supply may see with the ignition off. While
      the debounce still counts it on, the Pi may even be booted meanwhile. */
  function Rank(s: Supply): nat {
    if Settled(s) then SettledRank(s) else 78 + (if SecondComesFirst(s) then 1 else 0)
  }

  lemma MovedSettles(s: Supply, input: Input)
    requires s.power.Awake? && InRange(s) && LockOnlyWhenOff(s) && Quiet(input) && !Settled(s)
    ensures var m := Moved(s, input);
      && SettledRank(m) <= 77
      && (Settled(m) || (SecondComesFirst(m) ==> SecondComesFirst(s) && !SecondDue(s, input)))
      && (SecondDue(s, input) ==> SecondComesFirst(s))
  {
    hide SettledRank;
    TimedInRange(s, input);
    MachineInRange(Timed(s, input), false, input.dig3);
    RankIsBounded(Moved(s, input));
    hide CountBattery, CountTimers, Machine;
    PassClock(s, input);
    MachineKeepsClock(Timed(s, input), false, input.dig3);
  }

  lemma MachineKeepsClock(s: Supply, pin: bool, dig3: bool)
    ensures Machine(s, pin, dig3).clock == s.clock
  {
  }

  lemma RankIsBounded(s: Supply)
    requires InRange(s)
    ensures SettledRank(s) <= 77
  {
  }

  lemma SettledStays(s: Supply, input: Input)
    requires Settled(s) && Quiet(input)
    ensures Settled(Moved(s, input))
  {
    hide Machine, CountBattery, CountTimers;
    PassClock(s, input);
    MachineKeepsClock(Timed(s, input), false, input.dig3);
  }

  /** Waiting in POWERON for a moment that has gone by. */
  predicate Stuck(s: Supply) {
    s.state == PowerOn && !DelayFits(s)
  }

  lemma SettledRankFalls(s: Supply, input: Input)
    requires s.power.Awake? && InRange(s) && LockOnlyWhenOff(s) && !Stuck(s) && Quiet(input) && Settled(s)
    ensures var m := Moved(s, input);
      && (m.power.Asleep? || (m.power.Awake? && SettledRank(m) + (if SecondDue(s, input) then 1 else 0) <= SettledRank(s)))
      && !Stuck(m)
  {
    hide SettingsInRange, ValidLimit;
  }

  /** The ranking: a second costs one, nothing else costs a gain. */
  lemma RankFalls(s: Supply, input: Input)
    requires s.power.Awake? && InRange(s) && LockOnlyWhenOff(s) && !Stuck(s) && Quiet(input)
    ensures var t := Pass(s, input);
      && t == Moved(s, input)
      && (t.power.Asleep? || Rank(t) + (if SecondDue(s, input) then 1 else 0) <= Rank(s))
  {
    hide Moved, SettledRank, InRange, LockOnlyWhenOff, Stuck, SecondComesFirst;
    if Settled(s) {
      SettledRankFalls(s, input);
      SettledStays(s, input);
    } else {
      MovedSettles(s, input);
    }
  }

  function Passes(s: Supply, inputs: seq<Input>): Supply {
    if inputs == [] then s else Pass(Passes(s, Prefix(inputs)), Last(inputs))
  }

  /** The seconds counted in a run of passes. */
  function Seconds(s: Supply, inputs: seq<Input>): nat {
    if inputs == [] then 0 else
      var before := Passes(s, Prefix(inputs));
      Seconds(s, Prefix(inputs)) + (if before.power.Awake? && SecondDue(before, Last(inputs)) then 1 else 0)
  }

  /** The timer's milliseconds in a run, whether or not the supply is awake to
      count them. */
  function Ticks(inputs: seq<Input>): nat {
    if inputs == [] then 0 else Ticks(Prefix(inputs)) + (if Last(inputs).tick then 1 else 0)
  }

  /** As long as the supply is awake, every 1001 of them are a second. */
  lemma {:induction false} TicksMakeSeconds(s: Supply, inputs: seq<Input>)
    requires s.clock.ms <= 1000
    ensures var t := Passes(s, inputs);
      t.clock.ms <= 1000 && (t.power.Awake? ==> 1001 * Seconds(s, inputs) + t.clock.ms == Ticks(inputs) + s.clock.ms)
  {
    hide Pass, Timed;
    if inputs != [] {
      TicksMakeSeconds(s, Prefix(inputs));
      PassClock(Passes(s, Prefix(inputs)), Last(inputs));
      HaltedStays(Passes(s, Prefix(inputs)), Last(inputs));
    }
  }

  lemma HaltedStays(s: Supply, input: Input)
    ensures !s.power.Awake? ==> Pass(s, input) == s
  {
  }

  /** Milliseconds enough, from now on, for `rank` seconds and the next. */
  predicate LongEnough(s: Supply, inputs: seq<Input>, rank: nat) {
    s.clock.ms + Ticks(inputs) >= 1001 * (rank + 1)
  }

  lemma LongEnoughSeconds(s: Supply, inputs: seq<Input>, rank: nat)
    requires InRange(s) && LongEnough(s, inputs, rank)
    ensures Passes(s, inputs).power.Awake? ==> Seconds(s, inputs) > rank
  {
    TicksMakeSeconds(s, inputs);
  }

  /** Whenever waiting in POWERON, it is for a moment still to come. */
  ghost predicate NeverStuck(s: Supply, inputs: seq<Input>) {
    forall n :: 0 <= n <= |inputs| ==> !Stuck(Passes(s, inputs[..n]))
  }

  lemma NeverStuckBefore(s: Supply, inputs: seq<Input>)
    requires inputs != []
    ensures NeverStuck(s, inputs) <==> NeverStuck(s, Prefix(inputs)) && !Stuck(Passes(s, inputs))
  {
    hide Stuck, Passes;
    assert forall n :: 0 <= n < |inputs| ==> Prefix(inputs)[..n] == inputs[..n];
    assert inputs[..|inputs|] == inputs;
  }

  lemma {:induction false} QuietRunFalls(s: Supply, quiet: seq<Input>)
    requires s.power.Awake? && InRange(s) && LockOnlyWhenOff(s) && NeverStuck(s, quiet)
    requires forall i :: 0 <= i < |quiet| ==> Quiet(quiet[i])
    ensures var t := Passes(s, quiet);
      && InRange(t) && LockOnlyWhenOff(t)
      && (t.power.Asleep? || (t.power.Awake? && Seconds(s, quiet) + Rank(t) <= Rank(s)))
  {
    hide Rank, InRange, LockOnlyWhenOff, NeverStuck, Stuck, Moved;
    if quiet != [] {
      var before, input := Passes(s, Prefix(quiet)), Last(quiet);
      NeverStuckBefore(s, quiet);
      QuietRunFalls(s, Prefix(quiet));
      assert Passes(s, quiet) == Pass(before, input);
      if before.power.Awake? {
        BeforeIsNotStuck(s, Prefix(quiet));
        RankFalls(before, input);
        PassInRange(before, input);
        QuietHalts(before, input);
      }
    }
  }

  lemma BeforeIsNotStuck(s: Supply, inputs: seq<Input>)
    requires NeverStuck(s, inputs)
    ensures !Stuck(Passes(s, inputs))
  {
    hide Stuck, Passes;
    assert inputs[..|inputs|] == inputs;
  }

  lemma {:induction false} QuietKeepsGood(s: Supply, inputs: seq<Input>)
    requires Good(s) && s.power.Awake?
    requires forall i :: 0 <= i < |inputs| ==> Quiet(inputs[i])
    ensures RelaysFit(Passes(s, inputs)) && HaltedOff(Passes(s, inputs))
  {
    hide InRange, LockOnlyWhenOff, RelaysFit, DelayFits, HaltedOff, Moved;
    if inputs != [] {
      var before, input := Passes(s, Prefix(inputs)), Last(inputs);
      QuietKeepsGood(s, Prefix(inputs));
      assert Passes(s, inputs) == Pass(before, input);
      if before.power.Awake? {
        MovedFits(before, input);
      }
    }
  }

  lemma QuietHalts(s: Supply, input: Input)
    requires s.power.Awake?
    ensures Moved(s, input).power.Awake? || (Moved(s, input).power.Asleep? && Moved(s, input).state == Idle)
  {
    hide CountBattery, CountTimers;
  }

  /** A delay not yet gone by stays so while no byte comes. */
  lemma {:induction false} FittingIsNeverStuck(s: Supply, quiet: seq<Input>)
    requires s.power.Awake? && DelayFits(s)
    requires forall i :: 0 <= i < |quiet| ==> quiet[i].received.Nothing?
    ensures NeverStuck(s, quiet) && DelayFits(Passes(s, quiet))
  {
    hide Moved, NeverStuck;
    if quiet == [] {
      assert forall n :: 0 <= n <= |quiet| ==> quiet[..n] == [];
      assert NeverStuck(s, quiet) by { OnlyNow(s); }
    } else {
      FittingIsNeverStuck(s, Prefix(quiet));
      NeverStuckBefore(s, quiet);
      if Passes(s, Prefix(quiet)).power.Awake? {
        MovedKeepsDelay(Passes(s, Prefix(quiet)), Last(quiet));
      }
    }
  }

  lemma OnlyNow(s: Supply)
    ensures NeverStuck(s, []) <==> !Stuck(s)
  {
    assert NeverStuck(s, []) <==> !Stuck(Passes(s, [][..0]));
  }

  /** After any run at all, with any commands: a quiet supply is asleep by the
      second after its rank exactly if it is never stuck in POWERON. */
  lemma {:induction false} SleepsExactly(e: Eeprom, inputs: seq<Input>, quiet: seq<Input>)
    requires After(e, inputs).power.Awake?
    requires forall i :: 0 <= i < |quiet| ==> Quiet(quiet[i])
    requires LongEnough(After(e, inputs), quiet, Rank(After(e, inputs)))
    ensures Passes(After(e, inputs), quiet).power.Asleep? <==> NeverStuck(After(e, inputs), quiet)
  {
    hide After, Rank, Seconds, Passes, Stuck, InRange, LockOnlyWhenOff, LongEnough;
    var s := After(e, inputs);
    AlwaysInRange(e, inputs);
    if NeverStuck(s, quiet) {
      QuietRunFalls(s, quiet);
      LongEnoughSeconds(s, quiet, Rank(s));
    } else {
      var n :| 0 <= n <= |quiet| && Stuck(Passes(s, quiet[..n]));
      StuckIsAwake(s, quiet[..n]);
      assert quiet[..n] + quiet[n..] == quiet;
      PassesJoin(s, quiet[..n], quiet[n..]);
      LoweredDelayNeverSleeps(Passes(s, quiet[..n]), quiet[n..]);
    }
  }

  /** So it sleeps whenever the delay was not yet gone by, whatever was
      switched before and whether the ignition still counts as on. */
  lemma {:induction false} FittingSleeps(e: Eeprom, inputs: seq<Input>, quiet: seq<Input>)
    requires After(e, inputs).power.Awake? && DelayFits(After(e, inputs))
    requires forall i :: 0 <= i < |quiet| ==> Quiet(quiet[i])
    requires LongEnough(After(e, inputs), quiet, Rank(After(e, inputs)))
    ensures Passes(After(e, inputs), quiet).power.Asleep?
  {
    hide After, Rank, Seconds, Passes, NeverStuck, DelayFits;
    FittingIsNeverStuck(After(e, inputs), quiet);
    SleepsExactly(e, inputs, quiet);
  }

  lemma {:induction false} PassesJoin(s: Supply, inputs: seq<Input>, more: seq<Input>)
    ensures Passes(s, inputs + more) == Passes(Passes(s, inputs), more)
    decreases |more|
  {
    hide Pass;
    if more == [] {
      assert inputs + more == inputs;
    } else {
      PassesJoin(s, inputs, Prefix(more));
      assert Prefix(inputs + more) == inputs + Prefix(more);
    }
  }

  /** Only in IDLE does a quiet supply fall asleep. */
  lemma {:induction false} StuckIsAwake(s: Supply, quiet: seq<Input>)
    requires s.power.Awake? && forall i :: 0 <= i < |quiet| ==> Quiet(quiet[i])
    ensures Passes(s, quiet).power.Awake? || (Passes(s, quiet).power.Asleep? && Passes(s, quiet).state == Idle)
    ensures Stuck(Passes(s, quiet)) ==> Passes(s, quiet).power.Awake?
  {
    hide Moved;
    if quiet != [] {
      StuckIsAwake(s, Prefix(quiet));
      if Passes(s, Prefix(quiet)).power.Awake? {
        QuietHalts(Passes(s, Prefix(quiet)), Last(quiet));
      }
    }
  }

  /** From every state a disciplined run can reach: once the ignition stays
      low and no byte comes, the supply is asleep in IDLE with every relay off
      when the timer has come to one second more than its rank, 79 at most. */
  lemma {:induction false} SupplyGoesToSleep(e: Eeprom, inputs: seq<Input>, quiet: seq<Input>)
    requires Disciplined(e, inputs) && !After(e, inputs).power.Bootloader?
    requires forall i :: 0 <= i < |quiet| ==> Quiet(quiet[i])
    requires LongEnough(After(e, inputs), quiet, Rank(After(e, inputs)))
    ensures var t := Passes(After(e, inputs), quiet);
      t.power.Asleep? && t.state == Idle && t.relays == OFF
    ensures Rank(After(e, inputs)) <= 79
  {
    hide After, Disciplined, Rank, Seconds, Passes;
    var s := After(e, inputs);
    DisciplinedIsGood(e, inputs);
    AsleepStays(s, quiet);
    RankAtMost(s);
    if s.power.Awake? {
      FittingSleeps(e, inputs, quiet);
      QuietKeepsGood(s, quiet);
    }
  }

  /** So 80 seconds of the timer are enough, wherever the run has got to. */
  lemma {:induction false} EightySecondsAreEnough(e: Eeprom, inputs: seq<Input>, quiet: seq<Input>)
    requires Disciplined(e, inputs) && !After(e, inputs).power.Bootloader?
    requires forall i :: 0 <= i < |quiet| ==> Quiet(quiet[i])
    requires Ticks(quiet) >= 80 * 1001
    ensures var t := After(e, inputs + quiet); t.power.Asleep? && t.state == Idle && t.relays == OFF
  {
    hide After, Disciplined, Rank, Passes;
    AlwaysInRange(e, inputs);
    RankAtMost(After(e, inputs));
    AfterPasses(e, inputs, quiet);
    SupplyGoesToSleep(e, inputs, quiet);
  }

  lemma RankAtMost(s: Supply)
    requires InRange(s)
    ensures Rank(s) <= 79
  {
  }

  lemma {:induction false} AsleepStays(s: Supply, inputs: seq<Input>)
    ensures s.power.Asleep? ==> Passes(s, inputs) == s
  {
    if inputs != [] {
      AsleepStays(s, Prefix(inputs));
    }
  }

  // ------------------------------------------------------ a lowered delay

  /** Once '*' has put the delay below the seconds waited, POWERON is never
      left again without a byte. */
  lemma {:induction false} LoweredDelayNeverSleeps(s: Supply, quiet: seq<Input>)
    requires s.power.Awake? && Stuck(s)
    requires forall i :: 0 <= i < |quiet| ==> quiet[i].received.Nothing?
    ensures Passes(s, quiet).power.Awake? && Stuck(Passes(s, quiet))
  {
    hide CountBattery;
    if quiet != [] {
      LoweredDelayNeverSleeps(s, Prefix(quiet));
    }
  }

  lemma {:induction false} SettledIsNeverStuck(s: Supply, quiet: seq<Input>)
    requires s.power.Awake? && InRange(s) && LockOnlyWhenOff(s) && Settled(s) && !Stuck(s)
    requires forall i :: 0 <= i < |quiet| ==> Quiet(quiet[i])
    ensures var t := Passes(s, quiet); NeverStuck(s, quiet) && InRange(t) && LockOnlyWhenOff(t) && Settled(t) && !Stuck(t)
  {
    hide SettledRank, InRange, LockOnlyWhenOff, Settled, Stuck, Moved, NeverStuck;
    if quiet == [] {
      OnlyNow(s);
    } else {
      var before, input := Passes(s, Prefix(quiet)), Last(quiet);
      SettledIsNeverStuck(s, Prefix(quiet));
      NeverStuckBefore(s, quiet);
      assert Passes(s, quiet) == Pass(before, input);
      if before.power.Awake? {
        SettledRankFalls(before, input);
        SettledStays(before, input);
        PassInRange(before, input);
      }
    }
  }

  /** After any run at all, once the ignition counts as off: the supply is
      asleep by the second after its rank exactly if it does not wait in
      POWERON with a delay below the seconds waited. */
  lemma {:induction false} SettledSleepsExactly(e: Eeprom, inputs: seq<Input>, quiet: seq<Input>)
    requires After(e, inputs).power.Awake? && Settled(After(e, inputs))
    requires forall i :: 0 <= i < |quiet| ==> Quiet(quiet[i])
    requires LongEnough(After(e, inputs), quiet, SettledRank(After(e, inputs)))
    ensures Passes(After(e, inputs), quiet).power.Asleep? <==> !Stuck(After(e, inputs))
  {
    hide After, SettledRank, Seconds, Passes, Settled, Stuck, InRange, LockOnlyWhenOff;
    AlwaysInRange(e, inputs);
    if Stuck(After(e, inputs)) {
      LoweredDelayNeverSleeps(After(e, inputs), quiet);
    } else {
      SettledIsNeverStuck(After(e, inputs), quiet);
      SleepsExactly(e, inputs, quiet);
    }
  }

  /** With the ignition still counted as on, an IDLE whose timer is left above
      the delay goes on to POWERON and stays there. */
  lemma {:induction false} LeftOverNeverSleeps(s: Supply, quiet: seq<Input>)
    requires s.power.Awake? && s.state == Idle && !s.battery.locked && !DelayFits(s) && s.clock.kl15OffMs + 1 < KL15_OFF_DEBOUNCE_MS
    requires quiet != [] && forall i :: 0 <= i < |quiet| ==> Quiet(quiet[i])
    ensures Passes(s, quiet).power.Awake? && Stuck(Passes(s, quiet))
  {
    hide Pass, Passes, Quiet;
    assert [quiet[0]] + quiet[1..] == quiet;
    PassesJoin(s, [quiet[0]], quiet[1..]);
    OneMore(s, quiet[0]);
    assert Quiet(quiet[0]) && forall i :: 0 <= i < |quiet[1..]| ==> Quiet(quiet[1..][i]);
    GoesOnStuck(s, quiet[0]);
    QuietIsSilent(quiet[1..]);
    LoweredDelayNeverSleeps(Pass(s, quiet[0]), quiet[1..]);
  }

  lemma GoesOnStuck(s: Supply, input: Input)
    requires s.power.Awake? && s.state == Idle && !s.battery.locked && !DelayFits(s) && s.clock.kl15OffMs + 1 < KL15_OFF_DEBOUNCE_MS
    requires Quiet(input)
    ensures Pass(s, input).power.Awake? && Stuck(Pass(s, input))
  {
  }

  lemma QuietIsSilent(quiet: seq<Input>)
    requires forall i :: 0 <= i < |quiet| ==> Quiet(quiet[i])
    ensures forall i :: 0 <= i < |quiet| ==> quiet[i].received.Nothing?
  {
    forall i | 0 <= i < |quiet| ensures quiet[i].received.Nothing? {
      assert Quiet(quiet[i]);
    }
  }

  /** Two seconds into POWERON. */
  function Waited(): Input { Input(true, true, true, true, 120, false, Nothing) }

  function Repeat(input: Input, n: nat): (r: seq<Input>)
    ensures |r| == n
  {
    if n == 0 then [] else Repeat(input, n - 1) + [input]
  }

  lemma {:induction false} AfterPasses(e: Eeprom, inputs: seq<Input>, more: seq<Input>)
    ensures After(e, inputs + more) == Passes(After(e, inputs), more)
    decreases |more|
  {
    hide Pass;
    if more == [] {
      assert inputs + more == inputs;
    } else {
      AfterPasses(e, inputs, Prefix(more));
      assert Prefix(inputs + more) == inputs + Prefix(more);
    }
  }

  lemma {:induction false} Milliseconds(s: Supply, n: nat)
    requires s.power.Awake? && s.state == PowerOn && s.timers.powerOn < s.settings.powerOnTime
    requires s.clock.ms + n <= 1000
    ensures Passes(s, Repeat(Waited(), n)) == if n == 0 then s else s.(clock := Clock(0, s.clock.ms + n))
    decreases n
  {
    hide Pass, Waited;
    if n > 0 {
      Milliseconds(s, n - 1);
      assert Prefix(Repeat(Waited(), n)) == Repeat(Waited(), n - 1);
      OneMillisecond(Passes(s, Repeat(Waited(), n - 1)));
    }
  }

  lemma OneMillisecond(s: Supply)
    requires s.power.Awake? && s.state == PowerOn && s.timers.powerOn < s.settings.powerOnTime && s.clock.ms < 1000
    ensures Pass(s, Waited()) == s.(clock := Clock(0, s.clock.ms + 1))
  {
  }

  /** One second more of POWERON, up to one before the delay. */
  lemma {:induction false} SecondPasses(s: Supply)
    requires s.power.Awake? && s.state == PowerOn && s.timers.powerOn + 1 < s.settings.powerOnTime
    requires s.clock.ms == 0 && !s.battery.locked && s.battery.seconds == 0
    ensures Passes(s, Repeat(Waited(), 1001)) == s.(clock := Clock(0, 0), timers := s.timers.(powerOn := s.timers.powerOn + 1))
  {
    Milliseconds(s, 1000);
    assert Prefix(Repeat(Waited(), 1001)) == Repeat(Waited(), 1000);
  }

  lemma {:induction false} OneMore(s: Supply, input: Input)
    ensures Passes(s, [input]) == Pass(s, input)
  {
    assert Prefix([input]) == [] && Passes(s, []) == s;
  }

  lemma SwitchedOn(e: Eeprom, on: Input)
    requires on == Waited().(tick := false) && LoadSettings(e).powerOnTime == 3
    ensures var s := Pass(Start(e), on);
      && s.power.Awake? && s.state == PowerOn && s.timers.powerOn == 0 && s.settings.powerOnTime == 3
      && s.clock.ms == 0 && !s.battery.locked && s.battery.seconds == 0
  {
  }

  lemma Lowered(s: Supply, lower: Input)
    requires lower == Waited().(tick := false, received := Command('*', [49]))
    requires s.power.Awake? && s.state == PowerOn && s.timers.powerOn == 2 && s.settings.powerOnTime == 3
    ensures Pass(s, lower).power.Awake? && Stuck(Pass(s, lower))
  {
  }

  /** Switched on, and two seconds of the delay's three. */
  function TwoSeconds(): seq<Input> {
    var on := Waited().(tick := false);
    [] + [on] + Repeat(Waited(), 1001) + Repeat(Waited(), 1001)
  }

  function ThreeStored(): Eeprom { Eeprom(0, 3, 2, 118) }

  lemma {:induction false} AfterTwoSeconds()
    ensures var s := After(ThreeStored(), TwoSeconds());
      && s.power.Awake? && s.state == PowerOn && s.timers.powerOn == 2 && s.settings.powerOnTime == 3
      && !s.battery.locked && s.clock.kl15OffMs == 0
  {
    hide Pass, Repeat, Passes;
    var e, on, second := ThreeStored(), Waited().(tick := false), Repeat(Waited(), 1001);
    assert After(e, []) == Start(e);
    SwitchedOn(e, on);
    AfterPasses(e, [], [on]);
    OneMore(Start(e), on);
    hide After;
    AfterPasses(e, [] + [on], second);
    SecondPasses(After(e, [] + [on]));
    AfterPasses(e, [] + [on] + second, second);
    SecondPasses(After(e, [] + [on] + second));
  }

  lemma {:induction false} OneMoreInput(e: Eeprom, inputs: seq<Input>, input: Input)
    ensures After(e, inputs + [input]) == Pass(After(e, inputs), input)
  {
    assert Prefix(inputs + [input]) == inputs;
  }

  /** A run into that state: on, two seconds of the delay's three, then '*1'. */
  lemma {:induction false} LoweredDelayIsPossible()
    ensures exists e: Eeprom, inputs: seq<Input> :: After(e, inputs).power.Awake? && Stuck(After(e, inputs))
  {
    hide Pass, Stuck, After, TwoSeconds;
    var lower := Waited().(tick := false, received := Command('*', [49]));
    AfterTwoSeconds();
    Lowered(After(ThreeStored(), TwoSeconds()), lower);
    OneMoreInput(ThreeStored(), TwoSeconds(), lower);
  }

  /** And a run into that IDLE: after the two seconds '$', then Dig3 at once
      and '*1' on the way. */
  lemma {:induction false} LeftOverIsPossible()
    ensures exists e: Eeprom, inputs: seq<Input> ::
      var s := After(e, inputs);
      && s.power.Awake? && s.state == Idle && !s.battery.locked && !DelayFits(s) && s.clock.kl15OffMs == 0
  {
    hide Pass, After, TwoSeconds;
    var idle := Waited().(tick := false);
    var off, lower := idle.(received := Command('$', [])), idle.(dig3 := true, received := Command('*', [49]));
    var e := ThreeStored();
    AfterTwoSeconds();
    OneMoreInput(e, TwoSeconds(), off);
    OneMoreInput(e, TwoSeconds() + [off], lower);
    OneMoreInput(e, TwoSeconds() + [off] + [lower], idle);
    SwitchedOff(After(e, TwoSeconds()), off, lower, idle);
  }

  lemma SwitchedOff(s: Supply, off: Input, lower: Input, idle: Input)
    requires s.power.Awake? && s.state == PowerOn && s.timers.powerOn == 2 && s.settings.powerOnTime == 3
    requires !s.battery.locked && s.clock.kl15OffMs == 0 && idle == Waited().(tick := false)
    requires off == idle.(received := Command('$', [])) && lower == idle.(dig3 := true, received := Command('*', [49]))
    ensures var t := Pass(Pass(Pass(s, off), lower), idle);
      && t.power.Awake? && t.state == Idle && !t.battery.locked && !DelayFits(t) && t.clock.kl15OffMs == 0
  {
  }
}
