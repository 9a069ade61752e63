/** The firmware as it runs: global variables changed in place by the timers,
    the state machine and the commands. Each routine is proved to do what its
    function in `SupplyModel` says. */
module PowerSupplies {
  import opened Wrappers
  import opened SupplyModel
  import opened SupplyRuns

  /** What a command changes, field by field. */
  lemma Obeyed(s: Supply, t: Supply, command: char, arguments: seq<Byte>)
    requires !(command in {'U', 'u'} && (s.state == Idle || s.state == PowerOn))
    requires t.state == (if command == '$' then PowerOff else s.state) && t.power == s.power
    requires t.relays == NewRelays(s.relays, command) && t.settings == NewSettings(s.settings, command, arguments)
    requires t.timers == if command == '$' then s.timers.(powerOff := 15) else s.timers
    requires t.alive == NewAlive(s.alive, command) && t.clock == s.clock
    requires t.bootAlive == if command == '+' && s.state == PiBoot && s.bootAlive < 255 then s.bootAlive + 1 else s.bootAlive
    requires t.battery == s.battery.(limit := NewLimit(s.battery.limit, command, arguments))
    ensures t == Interpret(s, Command(command, arguments))
  {
    hide NewSettings, NewLimit, NewRelays, NewAlive;
  }

  class PowerSupply {
    var systemState: State
    var power: Power
    var portB: Relays
    var powerOnTimer: nat
    var powerOnTime: nat
    var bootTimer: nat
    var powerOffTimer: nat
    var idleTimer: nat
    var piAlive: nat
    var piBootAlive: nat
    var kl15OffMs: nat
    var int1000msCount: nat
    var lowVoltageLimit: nat
    var lowVoltageSeconds: nat
    var lowVoltageLock: bool
    var serviceMode: bool
    var sendDebugMessages: bool
    var eeprom: Eeprom

    function View(): Supply
      reads this
    {
      Supply(systemState, power, portB, Timers(powerOnTimer, bootTimer, powerOffTimer, idleTimer),
             piAlive, piBootAlive, Clock(kl15OffMs, int1000msCount),
             Battery(lowVoltageLimit, lowVoltageSeconds, lowVoltageLock),
             Settings(powerOnTime, serviceMode, sendDebugMessages, eeprom))
    }

    constructor (e: Eeprom)
      ensures View() == Start(e)
    {
      systemState, power, portB := Idle, Awake, OFF;
      powerOnTimer, bootTimer, powerOffTimer, idleTimer := 0, 0, 0, 30;
      piAlive, piBootAlive, kl15OffMs, int1000msCount := 0, 0, KL15_OFF_DEBOUNCE_MS, 0;
      lowVoltageSeconds, lowVoltageLock, serviceMode := 0, false, false;
      var stored := e;
      if stored.layout != EEPROM_LAYOUT {
        stored := stored.(debug := 0, limit := LOW_VOLTAGE_DEFAULT, layout := EEPROM_LAYOUT);
      }
      var limit := stored.limit;
      if limit != 0 && (limit < LOW_VOLTAGE_MIN || limit > LOW_VOLTAGE_MAX) {
        limit := LOW_VOLTAGE_DEFAULT;
        stored := stored.(limit := limit);
      }
      lowVoltageLimit := limit;
      if stored.debug != 0 && stored.debug != 1 {
        stored := stored.(debug := 0);
      }
      if stored.powerOnTime < 1 || stored.powerOnTime > 9 {
        stored := stored.(powerOnTime := 3);
      }
      sendDebugMessages := stored.debug == 1;
      powerOnTime := stored.powerOnTime;
      eeprom := stored;
    }

    method SetRelaisOn(nr: nat)
      modifies this`portB
      ensures portB == if nr == 0 then old(portB).(display := true) else if nr == 1 then old(portB).(pi := true)
                       else if nr == 2 then old(portB).(amplifier := true) else old(portB)
    {
      if nr == 0 { portB := portB.(display := true); }
      if nr == 1 { portB := portB.(pi := true); }
      if nr == 2 { portB := portB.(amplifier := true); }
    }

    method SetRelaisOff(nr: nat)
      modifies this`portB
      ensures portB == if nr == 0 then old(portB).(display := false) else if nr == 1 then old(portB).(pi := false)
                       else if nr == 2 then old(portB).(amplifier := false) else old(portB)
    {
      if nr == 0 { portB := portB.(display := false); }
      if nr == 1 { portB := portB.(pi := false); }
      if nr == 2 { portB := portB.(amplifier := false); }
    }

    method CheckBattery(pin: bool, tenths: nat)
      modifies this`lowVoltageSeconds, this`lowVoltageLock
      ensures Battery(lowVoltageLimit, lowVoltageSeconds, lowVoltageLock) == CountBattery(old(View()), pin, tenths)
    {
      if systemState == Run && lowVoltageLimit > 0 && tenths < lowVoltageLimit {
        if lowVoltageSeconds < 255 {
          lowVoltageSeconds := lowVoltageSeconds + 1;
        } else {
          lowVoltageSeconds := 255;
        }
      } else {
        lowVoltageSeconds := 0;
      }
      if lowVoltageLock && (!(pin || kl15OffMs < KL15_OFF_DEBOUNCE_MS) || tenths >= LOW_VOLTAGE_UNLOCK) {
        lowVoltageLock := false;
      }
    }

    method CountState()
      modifies this`powerOnTimer, this`piAlive, this`powerOffTimer, this`idleTimer, this`bootTimer
      ensures Timers(powerOnTimer, bootTimer, powerOffTimer, idleTimer) == CountTimers(old(View()))
      ensures piAlive == if WatchdogRuns(old(View())) then Less(old(piAlive)) else old(piAlive)
    {
      if systemState == PowerOn && powerOnTimer < powerOnTime {
        powerOnTimer := powerOnTimer + 1;
      } else if systemState == Run {
        if piAlive > 0 && !serviceMode {
          piAlive := piAlive - 1;
        }
      } else if systemState == PowerOff {
        if powerOffTimer > 0 {
          powerOffTimer := powerOffTimer - 1;
        }
      } else if systemState == Idle {
        if idleTimer > 0 {
          idleTimer := idleTimer - 1;
        }
      } else if systemState == PiBoot {
        if bootTimer > 0 {
          bootTimer := bootTimer - 1;
        }
      }
    }

    method Timer1000ms(pin: bool, tenths: nat)
      modifies this
      ensures View() == SupplyModel.Timer1000ms(old(View()), pin, tenths)
    {
      CheckBattery(pin, tenths);
      CountState();
    }

    method Timer1ms(input: Input)
      requires input.tick
      modifies this
      ensures View() == SupplyModel.Timer1ms(old(View()), input)
    {
      if input.kl15AtTick {
        kl15OffMs := 0;
      } else if kl15OffMs < KL15_OFF_DEBOUNCE_MS {
        kl15OffMs := kl15OffMs + 1;
      }
      int1000msCount := int1000msCount + 1;
      if int1000msCount > 1000 {
        int1000msCount := 0;
        Timer1000ms(input.kl15AtSecond, input.tenths);
      }
    }

    /** The chain of conditions of the state machine. */
    method StepState(pin: bool, dig3: bool)
      modifies this
      ensures View() == Machine(old(View()), pin, dig3)
    {
      hide CancelPowerOn, BeginPowerOff, SupplyModel.BootPi, SupplyModel.BeginRun;
      var kl15 := pin || kl15OffMs < KL15_OFF_DEBOUNCE_MS;
      if systemState == Idle && kl15 && !lowVoltageLock {
        WakeUp();
      } else if systemState == PowerOn && powerOnTimer < powerOnTime {
        if !kl15 {
          GoIdleAgain();
        }
      } else if systemState == PowerOn && powerOnTimer == powerOnTime {
        if !kl15 {
          GoIdleAgain();
        } else {
          BootPi();
        }
      } else if systemState == PiBoot && (bootTimer == 0 || piBootAlive >= PI_BOOT_ALIVE_TO_RUN) {
        if !kl15 {
          SwitchPiOff();
        } else {
          BeginRun();
        }
      } else if systemState == Run {
        if piAlive == 0 {
          CrashPi();
        } else if !kl15 {
          SwitchPiOff();
        } else if lowVoltageSeconds >= LOW_VOLTAGE_SECONDS {
          ProtectBattery();
        }
      } else if systemState == PowerOff && powerOffTimer > 0 {
        if dig3 {
          powerOffTimer := 0;
        }
      } else if systemState == PowerOff && powerOffTimer == 0 {
        CutPower();
      } else if systemState == Idle && idleTimer == 0 && !lowVoltageLock {
        power := Asleep;
      }
    }

    method WakeUp()
      modifies this
      ensures View() == old(View().(state := PowerOn, relays := View().relays.(display := true), timers := View().timers.(boot := 0)))
    {
      systemState := PowerOn;
      SetRelaisOn(0);
      bootTimer := 0;
    }

    method BootPi()
      modifies this
      ensures View() == SupplyModel.BootPi(old(View()))
    {
      systemState := PiBoot;
      SetRelaisOn(1);
      powerOnTimer := 0;
      bootTimer := PI_BOOT_TIME;
      piBootAlive := 0;
    }

    method BeginRun()
      modifies this
      ensures View() == SupplyModel.BeginRun(old(View()))
    {
      systemState := Run;
      powerOnTimer := 0;
      bootTimer := 25;
      if piAlive < PI_ALIVE_ON_RUN {
        piAlive := PI_ALIVE_ON_RUN;
      }
    }

    method CrashPi()
      modifies this
      ensures View() == old(View().(state := PowerOff, timers := View().timers.(powerOff := 5), relays := View().relays.(amplifier := false)))
    {
      SetRelaisOff(2);
      powerOffTimer := 5;
      systemState := PowerOff;
    }

    method ProtectBattery()
      modifies this
      ensures View() == BeginPowerOff(old(View())).(battery := old(View()).battery.(seconds := 0, locked := true))
    {
      SwitchPiOff();
      lowVoltageSeconds := 0;
      lowVoltageLock := true;
    }

    method CutPower()
      modifies this
      ensures View() == old(View().(state := Idle, relays := OFF, timers := View().timers.(idle := 0)))
    {
      SetRelaisOff(0);
      SetRelaisOff(1);
      SetRelaisOff(2);
      systemState := Idle;
      idleTimer := 0;
    }

    method GoIdleAgain()
      modifies this
      ensures View() == CancelPowerOn(old(View()))
    {
      systemState := Idle;
      powerOnTimer := 0;
      bootTimer := 0;
      idleTimer := 2;
      SetRelaisOff(0);
    }

    method SwitchPiOff()
      modifies this
      ensures View() == BeginPowerOff(old(View()))
    {
      SetRelaisOff(2);
      systemState := PowerOff;
      powerOnTimer := 0;
      bootTimer := 0;
      powerOffTimer := 15;
    }

    /** The three digits after 'B': stops at the first that does not come or
        is no digit. */
    method ReadLimit(arguments: seq<Byte>) returns (valid: bool, limit: nat)
      ensures valid <==> IsLimit(arguments)
      ensures valid ==> limit == LimitOf(arguments)
    {
      limit, valid := 0, true;
      var i := 0;
      while i < 3 && valid
        invariant 0 <= i <= 3
        invariant valid ==> i <= |arguments| && forall k :: 0 <= k < i ==> 48 <= arguments[k] <= 57
        invariant !valid ==> !IsLimit(arguments)
        invariant valid && i == 1 ==> limit == arguments[0] - 48
        invariant valid && i == 2 ==> limit == 10 * (arguments[0] - 48) + (arguments[1] - 48)
        invariant valid && i == 3 ==> limit == LimitOf(arguments)
        invariant valid && i == 0 ==> limit == 0
      {
        valid := i < |arguments| && 48 <= arguments[i] <= 57;
        if valid {
          limit := limit * 10 + (arguments[i] - 48);
        }
        i := i + 1;
      }
    }

    method Interpret(r: Received)
      modifies this
      ensures View() == SupplyModel.Interpret(old(View()), r)
    {
      hide NewSettings, NewLimit, NewRelays, NewAlive;
      if r.Command? {
        if r.command in {'U', 'u'} && (systemState == Idle || systemState == PowerOn) {
          power := Bootloader;
        } else {
          Obey(r.command, r.arguments);
        }
      }
    }

    /** The chain of commands. */
    method Obey(command: char, arguments: seq<Byte>)
      requires !(command in {'U', 'u'} && (systemState == Idle || systemState == PowerOn))
      modifies this
      ensures View() == SupplyModel.Interpret(old(View()), Command(command, arguments))
    {
      ghost var before := View();
      hide NewSettings, NewLimit, NewRelays, NewAlive, SupplyModel.Interpret;
      SwitchAndStore(command, arguments);
      ChangeState(command);
      CountAlive(command);
      Obeyed(before, View(), command, arguments);
    }

    /** `piAlive++` where a command has it, and the cap at the end. */
    method CountAlive(command: char)
      modifies this`piAlive
      ensures piAlive == NewAlive(old(piAlive), command)
    {
      if CountsAlive(command) {
        piAlive := if piAlive < 255 then piAlive + 1 else 0;
      }
      if piAlive > 3 {
        piAlive := 3;
      }
    }

    method SwitchAndStore(command: char, arguments: seq<Byte>)
      modifies this`portB, this`powerOnTime, this`serviceMode, this`sendDebugMessages, this`eeprom, this`lowVoltageLimit
      ensures View() == old(View()).(relays := NewRelays(old(portB), command),
                                     settings := NewSettings(old(View()).settings, command, arguments),
                                     battery := old(View()).battery.(limit := NewLimit(old(lowVoltageLimit), command, arguments)))
    {
      hide NewSettings, NewLimit, NewRelays;
      SwitchRelays(command);
      ChangeSettings(command, arguments);
    }

    method ChangeState(command: char)
      modifies this`systemState, this`powerOffTimer, this`piBootAlive
      ensures systemState == if command == '$' then PowerOff else old(systemState)
      ensures powerOffTimer == if command == '$' then 15 else old(powerOffTimer)
      ensures piBootAlive ==
        if command == '+' && old(systemState) == PiBoot && old(piBootAlive) < 255 then old(piBootAlive) + 1 else old(piBootAlive)
    {
      if command == '+' {
        if systemState == PiBoot && piBootAlive < 255 {
          piBootAlive := piBootAlive + 1;
        }
      } else if command == '$' {
        systemState := PowerOff;
        powerOffTimer := 15;
      }
    }

    method SwitchRelays(command: char)
      modifies this`portB
      ensures portB == NewRelays(old(portB), command)
    {
      if command == '1' {
        SetRelaisOn(0);
      } else if command == '2' {
        SetRelaisOn(1);
      } else if command == '3' {
        SetRelaisOn(2);
      } else if command == '4' {
        SetRelaisOff(0);
      } else if command == '5' {
        SetRelaisOff(1);
      } else if command == '6' || command == '$' {
        SetRelaisOff(2);
      }
    }

    method ChangeSettings(command: char, arguments: seq<Byte>)
      modifies this`powerOnTime, this`serviceMode, this`sendDebugMessages, this`eeprom, this`lowVoltageLimit
      ensures Settings(powerOnTime, serviceMode, sendDebugMessages, eeprom) ==
        NewSettings(old(Settings(powerOnTime, serviceMode, sendDebugMessages, eeprom)), command, arguments)
      ensures lowVoltageLimit == NewLimit(old(lowVoltageLimit), command, arguments)
    {
      if command == '#' {
        sendDebugMessages := !sendDebugMessages;
        eeprom := eeprom.(debug := if sendDebugMessages then 1 else 0);
      } else if command == '*' {
        powerOnTime := if |arguments| > 0 then ((arguments[0] as int) - 48) % 256 else 0;
        if powerOnTime > 0 && powerOnTime < 10 {
          eeprom := eeprom.(powerOnTime := powerOnTime);
        } else {
          powerOnTime := eeprom.powerOnTime;
        }
      } else if command == 'B' {
        var valid, limit := ReadLimit(arguments);
        if valid && (limit == 0 || (limit >= LOW_VOLTAGE_MIN && limit <= LOW_VOLTAGE_MAX)) {
          lowVoltageLimit := limit;
          eeprom := eeprom.(limit := lowVoltageLimit);
        }
      } else if command == '!' {
        serviceMode := true;
      } else if command == '?' {
        serviceMode := false;
      }
    }

    method MainLoop(input: Input)
      requires power.Awake?
      modifies this
      ensures View() == Pass(old(View()), input)
      ensures InRange(old(View())) && LockOnlyWhenOff(old(View())) ==> InRange(View()) && LockOnlyWhenOff(View())
    {
      if InRange(View()) && LockOnlyWhenOff(View()) {
        PassInRange(View(), input);
      }
      hide InRange, LockOnlyWhenOff, SupplyModel.Interpret, Machine, SupplyModel.Timer1ms;
      if input.tick {
        Timer1ms(input);
      }
      StepState(input.kl15, input.dig3);
      if power.Awake? {
        Interpret(input.received);
      }
    }
  }
}
