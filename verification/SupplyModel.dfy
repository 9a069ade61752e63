/** The power supply firmware of `firmware/powersupply/RaspberryPower.c` on
    values: one pass of `MainLoop` as a function of the variables, the pins it
    samples and the byte it reads. */
module SupplyModel {
  import opened Wrappers

  datatype State = Idle | PowerOn | PiBoot | Run | PowerOff

  /** `SwitchOff` and the reset into the bootloader do not return. */
  datatype Power = Awake | Asleep | Bootloader

  /** Bits 0 to 2 of PORTB: display, Raspberry Pi, amplifier. */
  datatype Relays = Relays(display: bool, pi: bool, amplifier: bool)

  datatype Eeprom = Eeprom(debug: Byte, powerOnTime: Byte, layout: Byte, limit: Byte)

  const PI_BOOT_TIME := 60
  const PI_ALIVE_ON_RUN := 3
  const PI_BOOT_ALIVE_TO_RUN := 2
  const KL15_OFF_DEBOUNCE_MS := 1000
  const EEPROM_LAYOUT := 2
  const LOW_VOLTAGE_SECONDS := 60
  const LOW_VOLTAGE_DEFAULT := 118
  const LOW_VOLTAGE_MIN := 90
  const LOW_VOLTAGE_MAX := 140
  const LOW_VOLTAGE_UNLOCK := 130
  const OFF := Relays(false, false, false)

  /** The timers of the states, counted in seconds. */
  datatype Timers = Timers(powerOn: nat, boot: nat, powerOff: nat, idle: nat)

  /** `kl15OffMs` and `Int1000msCount`. */
  datatype Clock = Clock(kl15OffMs: nat, ms: nat)

  /** The battery protection. */
  datatype Battery = Battery(limit: nat, seconds: nat, locked: bool)

  datatype Settings = Settings(powerOnTime: nat, serviceMode: bool, debug: bool, eeprom: Eeprom)

  /** The global variables, those that are only counted up for display left
      out. `alive` is `piAlive`, `bootAlive` is `piBootAlive`. */
  datatype Supply = Supply(state: State, power: Power, relays: Relays, timers: Timers,
                           alive: nat, bootAlive: nat, clock: Clock, battery: Battery, settings: Settings)

  /** A command byte and the bytes that follow it in time. */
  datatype Received = Nothing | Command(command: char, arguments: seq<Byte>)

  /** What one pass sees: whether a millisecond is due, the ignition pin each
      time it is sampled, the battery in tenths of a volt, the Dig3 pin and
      the next byte. */
  datatype Input = Input(tick: bool, kl15AtTick: bool, kl15AtSecond: bool, kl15: bool,
                         tenths: nat, dig3: bool, received: Received)

  // ------------------------------------------------------------------- start

  /** `LoadSettings`: writes defaults where nothing valid is stored. */
  function LoadSettings(e: Eeprom): Eeprom {
    var e1 := if e.layout == EEPROM_LAYOUT then e else Eeprom(0, e.powerOnTime, EEPROM_LAYOUT, LOW_VOLTAGE_DEFAULT);
    var e2 := if e1.limit != 0 && !(LOW_VOLTAGE_MIN <= e1.limit <= LOW_VOLTAGE_MAX) then e1.(limit := LOW_VOLTAGE_DEFAULT) else e1;
    var e3 := if e2.debug != 1 then e2.(debug := 0) else e2;
    if 1 <= e3.powerOnTime <= 9 then e3 else e3.(powerOnTime := 3)
  }

  /** `InitIO`, `InitGlobalVariables` and `LoadSettings`; the ignition counts
      as off until it was seen on. */
  function Start(e: Eeprom): Supply {
    var stored := LoadSettings(e);
    Supply(Idle, Awake, OFF, Timers(0, 0, 0, 30), 0, 0, Clock(KL15_OFF_DEBOUNCE_MS, 0),
           Battery(stored.limit, 0, false), Settings(stored.powerOnTime, false, stored.debug == 1, stored))
  }

  // ------------------------------------------------------------------ timers

  /** `KL15_On`: on at once, off only after the debounce time. */
  predicate Kl15On(clock: Clock, pin: bool) {
    pin || clock.kl15OffMs < KL15_OFF_DEBOUNCE_MS
  }

  predicate BatteryLow(state: State, battery: Battery, tenths: nat) {
    state == Run && battery.limit > 0 && tenths < battery.limit
  }

  /** The battery protection once a second. */
  function CountBattery(s: Supply, pin: bool, tenths: nat): Battery {
    Battery(s.battery.limit,
            if !BatteryLow(s.state, s.battery, tenths) then 0
            else if s.battery.seconds < 255 then s.battery.seconds + 1 else 255,
            s.battery.locked && Kl15On(s.clock, pin) && tenths < LOW_VOLTAGE_UNLOCK)
  }

  function Less(n: nat): nat {
    if n > 0 then n - 1 else 0
  }

  /** The timer of the current state once a second. */
  function CountTimers(s: Supply): Timers {
    match s.state
    case PowerOn => if s.timers.powerOn < s.settings.powerOnTime then s.timers.(powerOn := s.timers.powerOn + 1) else s.timers
    case Run => s.timers
    case PowerOff => s.timers.(powerOff := Less(s.timers.powerOff))
    case Idle => s.timers.(idle := Less(s.timers.idle))
    case PiBoot => s.timers.(boot := Less(s.timers.boot))
  }

  /** The watchdog does not run in service mode. */
  predicate WatchdogRuns(s: Supply) {
    s.state == Run && !s.settings.serviceMode
  }

  function Timer1000ms(s: Supply, pin: bool, tenths: nat): Supply {
    s.(battery := CountBattery(s, pin, tenths), timers := CountTimers(s),
       alive := if WatchdogRuns(s) then Less(s.alive) else s.alive)
  }

  function Debounce(offMs: nat, pin: bool): nat {
    if pin then 0 else if offMs < KL15_OFF_DEBOUNCE_MS then offMs + 1 else offMs
  }

  /** The second counter runs over at 1001 milliseconds. */
  predicate SecondDue(s: Supply, input: Input) {
    input.tick && s.clock.ms + 1 > 1000
  }

  function Timer1ms(s: Supply, input: Input): Supply {
    var offMs := Debounce(s.clock.kl15OffMs, input.kl15AtTick);
    if SecondDue(s, input) then Timer1000ms(s.(clock := Clock(offMs, 0)), input.kl15AtSecond, input.tenths)
    else s.(clock := Clock(offMs, s.clock.ms + 1))
  }

  // ----------------------------------------------------------- state machine

  function CancelPowerOn(s: Supply): Supply {
    s.(state := Idle, timers := s.timers.(powerOn := 0, boot := 0, idle := 2), relays := s.relays.(display := false))
  }

  function BeginPowerOff(s: Supply): Supply {
    s.(state := PowerOff, timers := s.timers.(powerOn := 0, boot := 0, powerOff := 15), relays := s.relays.(amplifier := false))
  }

  function BootPi(s: Supply): Supply {
    s.(state := PiBoot, relays := s.relays.(pi := true), timers := s.timers.(powerOn := 0, boot := PI_BOOT_TIME), bootAlive := 0)
  }

  function BeginRun(s: Supply): Supply {
    s.(state := Run, timers := s.timers.(powerOn := 0, boot := 25),
       alive := if s.alive < PI_ALIVE_ON_RUN then PI_ALIVE_ON_RUN else s.alive)
  }

  /** The chain of conditions in `MainLoop`. */
  function Machine(s: Supply, pin: bool, dig3: bool): Supply {
    var on := Kl15On(s.clock, pin);
    if s.state == Idle && on && !s.battery.locked then
      s.(state := PowerOn, relays := s.relays.(display := true), timers := s.timers.(boot := 0))
    else if s.state == PowerOn && s.timers.powerOn < s.settings.powerOnTime then
      if on then s else CancelPowerOn(s)
    else if s.state == PowerOn && s.timers.powerOn == s.settings.powerOnTime then
      if on then BootPi(s) else CancelPowerOn(s)
    else if s.state == PiBoot && (s.timers.boot == 0 || s.bootAlive >= PI_BOOT_ALIVE_TO_RUN) then
      if on then BeginRun(s) else BeginPowerOff(s)
    else if s.state == Run then
      if s.alive == 0 then s.(state := PowerOff, timers := s.timers.(powerOff := 5), relays := s.relays.(amplifier := false))
      else if !on then BeginPowerOff(s)
      else if s.battery.seconds >= LOW_VOLTAGE_SECONDS then
        BeginPowerOff(s).(battery := s.battery.(seconds := 0, locked := true))
      else s
    else if s.state == PowerOff && s.timers.powerOff > 0 then
      if dig3 then s.(timers := s.timers.(powerOff := 0)) else s
    else if s.state == PowerOff then
      s.(state := Idle, relays := OFF, timers := s.timers.(idle := 0))
    else if s.state == Idle && s.timers.idle == 0 && !s.battery.locked then
      s.(power := Asleep)
    else s
  }

  // ---------------------------------------------------------------- commands

  predicate CountsAlive(c: char) {
    c in {'1', '2', '3', '5', '6', '+', '$', '#'}
  }

  /** `piAlive` after a command: an 8-bit counter that `Interpret` caps. */
  function NewAlive(alive: nat, c: char): nat {
    var counted := if !CountsAlive(c) then alive else if alive < 255 then alive + 1 else 0;
    if counted > 3 then 3 else counted
  }

  function NewRelays(r: Relays, c: char): Relays {
    match c
    case '1' => r.(display := true)
    case '2' => r.(pi := true)
    case '3' => r.(amplifier := true)
    case '4' => r.(display := false)
    case '5' => r.(pi := false)
    case '6' => r.(amplifier := false)
    case '$' => r.(amplifier := false)
    case _ => r
  }

  /** The three digits after 'B', if they came and are digits. */
  predicate IsLimit(arguments: seq<Byte>) {
    |arguments| >= 3 && forall i :: 0 <= i < 3 ==> 48 <= arguments[i] <= 57
  }

  function LimitOf(arguments: seq<Byte>): nat
    requires IsLimit(arguments)
  {
    var a: int, b: int, c: int := arguments[0], arguments[1], arguments[2];
    100 * (a - 48) + 10 * (b - 48) + (c - 48)
  }

  predicate ValidLimit(limit: nat) {
    limit == 0 || (LOW_VOLTAGE_MIN <= limit && limit <= LOW_VOLTAGE_MAX)
  }

  /** '*' and a digit: the power-on delay; anything but 1 to 9 restores the
      stored one. The subtraction wraps around at 8 bits. */
  function NewPowerOnTime(stored: Byte, arguments: seq<Byte>): Byte {
    var digit: int := if |arguments| > 0 then arguments[0] else 48;
    var time: int := (digit - 48) % 256;
    if 0 < time < 10 then time else stored
  }

  function NewSettings(t: Settings, c: char, arguments: seq<Byte>): Settings {
    match c
    case '#' => t.(debug := !t.debug, eeprom := t.eeprom.(debug := if t.debug then 0 else 1))
    case '*' =>
      var time := NewPowerOnTime(t.eeprom.powerOnTime, arguments);
      t.(powerOnTime := time, eeprom := t.eeprom.(powerOnTime := time))
    case 'B' =>
      if IsLimit(arguments) && ValidLimit(LimitOf(arguments)) then t.(eeprom := t.eeprom.(limit := LimitOf(arguments))) else t
    case '!' => t.(serviceMode := true)
    case '?' => t.(serviceMode := false)
    case _ => t
  }

  function NewLimit(limit: nat, c: char, arguments: seq<Byte>): nat {
    if c == 'B' && IsLimit(arguments) && ValidLimit(LimitOf(arguments)) then LimitOf(arguments) else limit
  }

  function Interpret(s: Supply, r: Received): Supply {
    if r.Nothing? then s
    else if r.command in {'U', 'u'} && (s.state == Idle || s.state == PowerOn) then s.(power := Bootloader)
    else Supply(
      if r.command == '$' then PowerOff else s.state,
      s.power,
      NewRelays(s.relays, r.command),
      if r.command == '$' then s.timers.(powerOff := 15) else s.timers,
      NewAlive(s.alive, r.command),
      if r.command == '+' && s.state == PiBoot && s.bootAlive < 255 then s.bootAlive + 1 else s.bootAlive,
      s.clock,
      s.battery.(limit := NewLimit(s.battery.limit, r.command, r.arguments)),
      NewSettings(s.settings, r.command, r.arguments))
  }

  // -------------------------------------------------------------------- pass

  /** The timers of one pass. */
  function Timed(s: Supply, input: Input): Supply {
    if input.tick then Timer1ms(s, input) else s
  }

  /** The variables when the pass comes to the received byte. */
  function Moved(s: Supply, input: Input): Supply {
    Machine(Timed(s, input), input.kl15, input.dig3)
  }

  /** One pass of `MainLoop`. */
  function Pass(s: Supply, input: Input): Supply {
    if !s.power.Awake? then s else
      var m := Moved(s, input);
      if m.power.Awake? then Interpret(m, input.received) else m
  }

  function After(e: Eeprom, inputs: seq<Input>): Supply {
    if inputs == [] then Start(e) else Pass(After(e, inputs[..|inputs| - 1]), inputs[|inputs| - 1])
  }
}
