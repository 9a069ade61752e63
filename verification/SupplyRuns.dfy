/** What the firmware keeps over whole runs, for every pattern of ignition,
    voltage, switches and received bytes. */
module SupplyRuns {
  import opened Wrappers
  import opened SupplyModel

  // ----------------------------------------------------- variables in range

  predicate TimersInRange(t: Timers) {
    t.boot <= PI_BOOT_TIME && t.powerOff <= 15 && t.idle <= 30
  }

  predicate SettingsInRange(t: Settings) {
    1 <= t.powerOnTime <= 9 && t.eeprom.powerOnTime == t.powerOnTime
  }

  predicate InRange(s: Supply) {
    && TimersInRange(s.timers) && SettingsInRange(s.settings) && ValidLimit(s.battery.limit)
    && s.alive <= PI_ALIVE_ON_RUN && (s.state == Run ==> s.alive > 0)
    && s.clock.kl15OffMs <= KL15_OFF_DEBOUNCE_MS && s.clock.ms <= 1000
  }

  /** The lock of the battery protection holds only while the Pi is off or
      being switched off. */
  predicate LockOnlyWhenOff(s: Supply) {
    s.battery.locked ==> s.state == PowerOff || s.state == Idle
  }

  lemma StartInRange(e: Eeprom)
    ensures InRange(Start(e)) && LockOnlyWhenOff(Start(e))
  {
  }

  /** After the timers only the watchdog may have run out. */
  predicate TimedRange(s: Supply) {
    && TimersInRange(s.timers) && SettingsInRange(s.settings) && ValidLimit(s.battery.limit)
    && s.alive <= PI_ALIVE_ON_RUN
    && s.clock.kl15OffMs <= KL15_OFF_DEBOUNCE_MS && s.clock.ms <= 1000
  }

  lemma TimedInRange(s: Supply, input: Input)
    requires InRange(s) && LockOnlyWhenOff(s)
    ensures TimedRange(Timed(s, input)) && LockOnlyWhenOff(Timed(s, input))
  {
  }

  lemma MachineInRange(s: Supply, pin: bool, dig3: bool)
    requires TimedRange(s) && LockOnlyWhenOff(s)
    ensures InRange(Machine(s, pin, dig3)) && LockOnlyWhenOff(Machine(s, pin, dig3))
  {
  }

  lemma SettingsStayInRange(t: Settings, c: char, arguments: seq<Byte>)
    requires SettingsInRange(t)
    ensures SettingsInRange(NewSettings(t, c, arguments))
  {
    hide LimitOf, IsLimit, ValidLimit;
  }

  lemma InterpretInRange(s: Supply, r: Received)
    requires InRange(s) && LockOnlyWhenOff(s)
    ensures InRange(Interpret(s, r)) && LockOnlyWhenOff(Interpret(s, r))
  {
    hide NewSettings, NewRelays, IsLimit, LimitOf, ValidLimit, SettingsInRange;
    if r.Command? {
      SettingsStayInRange(s.settings, r.command, r.arguments);
    }
  }

  lemma PassInRange(s: Supply, input: Input)
    requires InRange(s) && LockOnlyWhenOff(s)
    ensures InRange(Pass(s, input)) && LockOnlyWhenOff(Pass(s, input))
  {
    hide Timed, Machine, Interpret, InRange, TimedRange, LockOnlyWhenOff;
    TimedInRange(s, input);
    MachineInRange(Timed(s, input), input.kl15, input.dig3);
    InterpretInRange(Moved(s, input), input.received);
  }

  lemma {:induction false} AlwaysInRange(e: Eeprom, inputs: seq<Input>)
    ensures InRange(After(e, inputs)) && LockOnlyWhenOff(After(e, inputs))
  {
    hide InRange, LockOnlyWhenOff, Pass;
    if inputs == [] {
      StartInRange(e);
    } else {
      AlwaysInRange(e, inputs[..|inputs| - 1]);
      PassInRange(After(e, inputs[..|inputs| - 1]), inputs[|inputs| - 1]);
    }
  }
}
