/** Exact counting: what the debounce, the battery protection and the watchdog
    know about the past, for every run. */
module SupplyCounting {
  import opened SupplyModel
  import opened SupplyRuns

  function Prefix<T>(s: seq<T>): seq<T>
    requires s != []
  {
    s[..|s| - 1]
  }

  function Last<T>(s: seq<T>): T
    requires s != []
  {
    s[|s| - 1]
  }

  /** How many entries at the end of `s` are true. */
  function Trailing(s: seq<bool>): (n: nat)
    ensures n <= |s|
    ensures forall k :: |s| - n <= k < |s| ==> s[k]
    ensures n < |s| ==> !s[|s| - n - 1]
  {
    if s == [] || !Last(s) then 0 else Trailing(Prefix(s)) + 1
  }

  // ---------------------------------------------------------------- ignition

  /** Whether the ignition pin was low, at every millisecond so far. */
  function LowSamples(e: Eeprom, inputs: seq<Input>): seq<bool> {
    if inputs == [] then [] else
      var lows := LowSamples(e, Prefix(inputs));
      if After(e, Prefix(inputs)).power.Awake? && Last(inputs).tick then lows + [!Last(inputs).kl15AtTick] else lows
  }

  /** `kl15OffMs` counts the low milliseconds at the end, up to the debounce
      time; before the first high one it stands at the debounce time. */
  lemma {:induction false} DebounceCounts(e: Eeprom, inputs: seq<Input>)
    ensures var lows := LowSamples(e, inputs);
      After(e, inputs).clock.kl15OffMs ==
        if Trailing(lows) == |lows| || Trailing(lows) >= 1000 then 1000 else Trailing(lows)
  {
    if inputs != [] {
      DebounceCounts(e, Prefix(inputs));
      PassClock(After(e, Prefix(inputs)), Last(inputs));
      var lows := LowSamples(e, Prefix(inputs));
      var low := !Last(inputs).kl15AtTick;
      assert Prefix(lows + [low]) == lows;
      assert After(e, inputs) == Pass(After(e, Prefix(inputs)), Last(inputs));
    }
  }

  lemma PassClock(s: Supply, input: Input)
    ensures Pass(s, input).clock == if s.power.Awake? then Timed(s, input).clock else s.clock
    ensures Timed(s, input).clock == if !input.tick then s.clock else
              Clock(Debounce(s.clock.kl15OffMs, input.kl15AtTick), if SecondDue(s, input) then 0 else s.clock.ms + 1)
  {
    hide NewSettings, NewRelays, CountBattery, CountTimers;
  }

  /** The ignition counts as off exactly when its pin is low now and was low
      at every millisecond since the start, or at the last 1000 of them. */
  lemma {:induction false} IgnitionOffExactly(e: Eeprom, inputs: seq<Input>, pin: bool)
    ensures var lows := LowSamples(e, inputs); var n := |lows|;
      !Kl15On(After(e, inputs).clock, pin) <==>
        !pin && ((forall k :: 0 <= k < n ==> lows[k])
                 || (n >= 1000 && forall k :: n - 1000 <= k < n ==> lows[k]))
  {
    DebounceCounts(e, inputs);
    var lows := LowSamples(e, inputs);
    var n, t := |lows|, Trailing(LowSamples(e, inputs));
    if t < n {
      assert !lows[n - t - 1];
    }
  }

  // ----------------------------------------------------------------- battery

  /** A voltage that counts against the battery; a limit of 0 switches the
      protection off. */
  predicate Low(s: Supply, tenths: nat) {
    s.state == Run && s.battery.limit != 0 && tenths < s.battery.limit
  }

  /** Whether each second since the last battery shutdown was one of RUN with
      the battery below the limit then in force. */
  function LowSeconds(e: Eeprom, inputs: seq<Input>): seq<bool> {
    if inputs == [] then [] else
      var s, input := After(e, Prefix(inputs)), Last(inputs);
      var lows := LowSeconds(e, Prefix(inputs));
      if !s.power.Awake? then lows
      else if BatteryTrips(s, input) then []
      else if SecondDue(s, input) then lows + [Low(s, input.tenths)]
      else lows
  }

  /** This pass ends RUN because of the battery. */
  predicate BatteryTrips(s: Supply, input: Input) {
    s.state == Run && Moved(s, input).battery.locked
  }

  lemma {:induction false} BatteryCounts(e: Eeprom, inputs: seq<Input>)
    ensures var n := Trailing(LowSeconds(e, inputs));
      After(e, inputs).battery.seconds == if n < 255 then n else 255
  {
    if inputs != [] {
      var s, input := After(e, Prefix(inputs)), Last(inputs);
      BatteryCounts(e, Prefix(inputs));
      AlwaysInRange(e, Prefix(inputs));
      if s.power.Awake? {
        PassBattery(s, input);
      }
      var lows := LowSeconds(e, Prefix(inputs));
      var low := Low(s, input.tenths);
      assert Prefix(lows + [low]) == lows;
      assert After(e, inputs) == Pass(s, input);
    }
  }

  lemma PassBattery(s: Supply, input: Input)
    requires s.power.Awake? && LockOnlyWhenOff(s)
    ensures Pass(s, input).battery.seconds ==
      if BatteryTrips(s, input) then 0
      else if !SecondDue(s, input) then s.battery.seconds
      else if !Low(s, input.tenths) then 0
      else if s.battery.seconds < 255 then s.battery.seconds + 1 else 255
    ensures BatteryTrips(s, input) <==>
      s.state == Run && Timed(s, input).alive > 0 && Kl15On(Timed(s, input).clock, input.kl15)
      && Timed(s, input).battery.seconds >= 60
  {
    hide NewSettings, NewRelays, CountTimers;
  }

  /** The battery shuts the Pi down exactly after 60 seconds in a row, this
      one included, that were all seconds of RUN below the limit in force,
      unless the watchdog or the ignition is first. */
  lemma {:induction false} BatteryTripsExactly(e: Eeprom, inputs: seq<Input>, input: Input)
    requires After(e, inputs).power.Awake?
    ensures var s := After(e, inputs); var m := Moved(s, input);
      var lows := LowSeconds(e, inputs) + (if SecondDue(s, input) then [Low(s, input.tenths)] else []);
      BatteryTrips(s, input) <==>
        && s.state == Run && !(m.state == PowerOff && m.timers.powerOff == 5) && Kl15On(Timed(s, input).clock, input.kl15)
        && |lows| >= 60 && forall k :: |lows| - 60 <= k < |lows| ==> lows[k]
  {
    var s := After(e, inputs);
    AlwaysInRange(e, inputs);
    PassBattery(s, input);
    BatteryCounts(e, inputs);
    TimedSeconds(s, input);
    if s.state == Run { FiresAtZero(s, input); }
    hide Moved, Timed, After;
    var before := LowSeconds(e, inputs);
    var lows := before + (if SecondDue(s, input) then [Low(s, input.tenths)] else []);
    if SecondDue(s, input) {
      assert Prefix(lows) == before;
    } else {
      assert lows == before;
    }
    SixtyInARow(lows);
  }

  lemma SixtyInARow(lows: seq<bool>)
    ensures Trailing(lows) >= 60 <==> |lows| >= 60 && forall k :: |lows| - 60 <= k < |lows| ==> lows[k]
  {
    var t := Trailing(lows);
    if t < |lows| && t < 60 {
      assert !lows[|lows| - t - 1];
    }
  }

  /** The lock comes with that, and goes with the first second at which the
      ignition is off or the battery has 13 volts. */
  lemma LockExactly(s: Supply, input: Input)
    requires s.power.Awake? && LockOnlyWhenOff(s)
    ensures var released := SecondDue(s, input) && (!Kl15On(Timed(s, input).clock, input.kl15AtSecond) || input.tenths >= 130);
      Pass(s, input).battery.locked <==> BatteryTrips(s, input) || (s.battery.locked && !released)
  {
    hide CountTimers, NewSettings, NewRelays, NewLimit, NewAlive;
  }

  lemma TimedSeconds(s: Supply, input: Input)
    ensures Timed(s, input).battery.seconds ==
      if !SecondDue(s, input) then s.battery.seconds
      else if !Low(s, input.tenths) then 0
      else if s.battery.seconds < 255 then s.battery.seconds + 1 else 255
  {
    hide CountTimers;
  }

  /** While the lock holds, the supply neither powers the Pi up nor sleeps. */
  lemma LockKeepsOff(s: Supply, input: Input)
    requires s.power.Awake? && LockOnlyWhenOff(s) && Timed(s, input).battery.locked
    ensures var m := Moved(s, input);
      m.power.Awake? && m.battery.locked && (m.state == PowerOff || m.state == Idle)
  {
    hide CountTimers;
  }

  // ---------------------------------------------------------------- watchdog

  datatype Beat = Tick | Sign

  /** Since RUN began: the seconds outside service mode, and the commands that
      count as a sign of life. */
  function Beats(e: Eeprom, inputs: seq<Input>): seq<Beat> {
    if inputs == [] then [] else
      var s, input := After(e, Prefix(inputs)), Last(inputs);
      if !s.power.Awake? then Beats(e, Prefix(inputs))
      else if Moved(s, input).state != Run then []
      else (if s.state == Run then WithSecond(Beats(e, Prefix(inputs)), s, input) else [])
           + (if input.received.Command? && IsSign(input.received.command) then [Sign] else [])
  }

  /** The relay commands but '4', '+', '$' and '#'. */
  predicate IsSign(c: char) {
    c == '1' || c == '2' || c == '3' || c == '5' || c == '6' || c == '+' || c == '$' || c == '#'
  }

  /** The beats once the pass with `input` has counted its second. */
  function WithSecond(beats: seq<Beat>, s: Supply, input: Input): seq<Beat> {
    beats + (if SecondDue(s, input) && s.state == Run && !s.settings.serviceMode then [Tick] else [])
  }

  /** Signs minus ticks. */
  function Balance(beats: seq<Beat>): int {
    if beats == [] then 0 else Balance(Prefix(beats)) + (if Last(beats) == Sign then 1 else -1)
  }

  /** `level` is the least of 3 + signs - ticks over all stretches that reach
      to the end, the empty one included. */
  ghost predicate IsLevel(beats: seq<Beat>, level: int) {
    && (forall j :: 0 <= j <= |beats| ==> level <= 3 + Balance(beats[j..]))
    && (exists j :: 0 <= j <= |beats| && level == 3 + Balance(beats[j..]))
  }

  lemma {:induction false} LevelOfNone()
    ensures IsLevel([], 3)
  {
    var none: seq<Beat> := [];
    assert none[0..] == [];
  }

  /** One more beat: up to three at most, or one down. */
  lemma {:induction false} LevelStep(beats: seq<Beat>, beat: Beat, level: int)
    requires IsLevel(beats, level)
    ensures IsLevel(beats + [beat], if beat == Tick then level - 1 else if level < 3 then level + 1 else 3)
  {
    var more := beats + [beat];
    var next := if beat == Tick then level - 1 else if level < 3 then level + 1 else 3;
    forall j | 0 <= j <= |beats|
      ensures Balance(more[j..]) == Balance(beats[j..]) + (if beat == Sign then 1 else -1)
    {
      assert Prefix(more[j..]) == beats[j..] && Last(more[j..]) == beat;
    }
    assert more[|more|..] == [];
    assert level <= 3 by { assert beats[|beats|..] == []; }
    assert beats[|beats|..] == [];
    var j :| 0 <= j <= |beats| && level == 3 + Balance(beats[j..]);
    if beat == Sign && level == 3 {
      assert next == 3 + Balance(more[|more|..]);
    } else {
      assert next == 3 + Balance(more[j..]);
    }
  }

  lemma {:induction false} SecondLevel(beats: seq<Beat>, s: Supply, input: Input)
    requires s.state == Run && s.alive > 0 && IsLevel(beats, s.alive)
    ensures IsLevel(WithSecond(beats, s, input), Timed(s, input).alive)
  {
    hide IsLevel, CountBattery, CountTimers;
    if SecondDue(s, input) && !s.settings.serviceMode {
      LevelStep(beats, Tick, s.alive);
    } else {
      assert WithSecond(beats, s, input) == beats;
    }
  }

  /** In RUN `piAlive` is exactly the least balance of signs and ticks over
      all stretches up to now, plus three. */
  lemma {:induction false} WatchdogCounts(e: Eeprom, inputs: seq<Input>)
    ensures After(e, inputs).state == Run ==> IsLevel(Beats(e, inputs), After(e, inputs).alive)
  {
    hide IsLevel, Interpret, Timed, Balance;
    if inputs != [] {
      var s, input := After(e, Prefix(inputs)), Last(inputs);
      WatchdogCounts(e, Prefix(inputs));
      AlwaysInRange(e, Prefix(inputs));
      assert After(e, inputs) == Pass(s, input);
      if s.power.Awake? {
        var m := Moved(s, input);
        MovedState(s, input);
        InterpretAlive(m, input.received);
        if m.state == Run {
          var before := if s.state == Run then WithSecond(Beats(e, Prefix(inputs)), s, input) else [];
          assert IsLevel(before, m.alive) by {
            if s.state == Run {
              SecondLevel(Beats(e, Prefix(inputs)), s, input);
            } else {
              LevelOfNone();
            }
          }
          if input.received.Command? && IsSign(input.received.command) {
            LevelStep(before, Sign, m.alive);
          } else {
            assert Beats(e, inputs) == before;
          }
        }
      }
    }
  }

  lemma MovedState(s: Supply, input: Input)
    requires InRange(s) && s.power.Awake?
    ensures var m := Moved(s, input); m.state == Run ==>
      m.power.Awake? && 0 < m.alive <= 3 && m.alive == if s.state == Run then Timed(s, input).alive else 3
  {
    hide CountBattery;
  }

  lemma InterpretAlive(s: Supply, r: Received)
    requires 0 < s.alive <= 3 || s.state != Run
    ensures var t := Interpret(s, r);
      t.state == Run ==>
        s.state == Run && t.alive == if r.Nothing? || !IsSign(r.command) then s.alive else if s.alive < 3 then s.alive + 1 else 3
  {
    hide NewSettings, NewRelays, NewLimit;
  }

  /** The watchdog ends RUN in exactly the first pass in which, over some
      stretch since RUN began, the seconds outside service mode exceed the
      signs of life by three. */
  lemma {:induction false} WatchdogFiresExactly(e: Eeprom, inputs: seq<Input>, input: Input)
    requires var s := After(e, inputs); s.power.Awake? && s.state == Run
    ensures var s := After(e, inputs); var m := Moved(s, input);
      var beats := WithSecond(Beats(e, inputs), s, input);
      && (m.state == PowerOff && m.timers.powerOff == 5 <==> exists j :: 0 <= j <= |beats| && Balance(beats[j..]) <= -3)
      && (forall j :: 0 <= j <= |Beats(e, inputs)| ==> Balance(Beats(e, inputs)[j..]) > -3)
  {
    var s := After(e, inputs);
    AlwaysInRange(e, inputs);
    WatchdogCounts(e, inputs);
    SecondLevel(Beats(e, inputs), s, input);
    FiresAtZero(s, input);
    var beats, level := WithSecond(Beats(e, inputs), s, input), Timed(s, input).alive;
    var j :| 0 <= j <= |beats| && level == 3 + Balance(beats[j..]);
  }

  lemma FiresAtZero(s: Supply, input: Input)
    requires s.state == Run
    ensures var m := Moved(s, input); m.state == PowerOff && m.timers.powerOff == 5 <==> Timed(s, input).alive == 0
  {
    hide CountBattery;
  }
}
