# CarNiNe: verified models

A Dafny model of the parts of CarNiNe that keep state, and proofs about them:
the control hub with its port expanders and PWM channels, the firmware of the
power supply with its serial rings, the audio path from decoded bytes to the
sound card, the incremental rescan and the playlists of the media library, and
the two algorithms of the demo GPS mouse. `dafny verify dfyconfig.toml` checks
all of it.

Where the program changes things in place, there is a class with its fields
(or a method over an array) whose methods have the source's branches and
loops. Most are proved equal to a function on values, and what the program
promises is proved about those functions, over whole runs; the others state
it themselves.

| Files | Part |
|---|---|
| `ControlModel`, `ControlDevices`, `ControlRuns`, `ControlBroadcast`, `ControlBoost`, `ControlDriving`, `ControlEffects`, `ControlSetup`, `ControlExit`, `ControlHub` | the control hub |
| `SupplyModel`, `SupplyRuns`, `SupplyCounting`, `SupplyPower`, `SupplyTimes`, `PowerSupply` | the power supply's state machine |
| `SerialModel`, `SerialPort` | its UART rings |
| `PcmSource` | bytes to frames through a bounded ring |
| `MixerModel`, `MixerProofs`, `MixerSound`, `AudioMixer` | fading, mixing and filling the output |
| `EngineSlots`, `EngineStops` | playbacks, slots and the command queue |
| `MediaModel`, `MediaProofs`, `MediaReads`, `MediaLibrary` | scanning the media folders |
| `PlaylistModel`, `PlaylistProofs`, `PlaylistRuns`, `Playlists` | playlists and the places to resume at |
| `Polyline`, `Drive` | `demo_gps.py` |
| `Wrappers` | `Option`, `Result`, bytes |

How the surroundings come in:

- Control hub: a call on a bus, a reset line or a PWM channel is answered by
  `Config.answers` at its running number, so a lemma for every configuration
  is one for every pattern of failures. A call on a chip held in reset fails.
  Between two operations of the hub any device may fall back to all inputs
  (`ForgetOp`). A failed call leaves the device as it was. The order in which
  a `HashMap` is walked is a parameter.
- Power supply: one `Input` is one pass of `MainLoop` with what it samples:
  whether a millisecond is waiting, the ignition pin at each place it is read,
  the battery's tenths of a volt, Dig3 and a command byte with what follows it.
- Serial rings: every interleaving of the two interrupts, the hardware's shift
  register and the two halves of `SendByte` (room found, byte stored) is a
  sequence of steps.
- Decoder: a `Tick` is what the output and the owner of the track do while the
  decoder waits or works; for `push_slice` against the two pops of a frame,
  the look for room, the store and each pop are steps of their own, in any
  order (`PcmModel.Event`). A schedule is finite and a run is watched until it is
  used up, so a statement about a run still going on is one about every
  prefix.
- Rescan: a file is found with a fingerprint and the reader's answers. The
  answers are assumed to depend on path and fingerprint only (`Honest`).

## Where the code says less than its comments

- `set_overheated`: a comment has the retry put back what the state says. If a
  control's hardware fails while cooling down, its own value has already left
  `normal`; the state stays at full and the own value is lost
  (`ControlBoost.OwnValueLost`, exactly when: `CoolDownKeepsOwnExactly`).
- `shut_down`: a comment has every chip with a reset GPIO put into reset. It
  pulls the lines that were requested once (`ShutDownHoldsExactly`). A chip
  that answers has its line (`ShutDownHoldsChips`); one whose line could not be
  requested keeps its outputs as they are (`ControlRuns.ResetLineMissed`).
- The comment at 'U' says a stray one cannot cut the Pi off. It does exactly if
  a '2' came in IDLE or POWERON and still holds, no '5' there and no state with
  the Pi powered having followed it (`SupplyPower.CutsOffExactly`; a run:
  `StrayRelayCommandCutsOff`).
- A power-on delay lowered by '*' below the seconds already waited is never
  reached (`SupplyPower.LoweredDelayIsPossible`), nor is one that IDLE starts
  with seconds left over from before a '$' (`LeftOverIsPossible`). A quiet
  supply goes to sleep exactly if it never waits there (`SleepsExactly`).
- `delete_playlist` drops the last place when its playlist column names the
  playlist. An entry of that playlist stored under another playlist's name
  makes the deletion fail instead (`PlaylistRuns.DeletionCanFail`, exactly
  when: `PlaylistProofs.DeletePlaylistExactly`).
- `start_at` of the engine gives up after two seconds and sets a flag. A source
  at whose flag the output callback had already looked is added all the same,
  or was added just before, and keeps its slot for good
  (`EngineProofs.AnOrphanIsPossible`, `AddedBeforeGivingUp`). So does one
  whose playback is dropped while live, as `CpalPlayback` has no `Drop`: two
  starts at once in the media player store one over the other
  (`AnAbandonedOneStays`). There is no third way (`OrphanExactly`).
- `decode_into_ring` keeps the channel order in what it decodes, but
  `push_slice` and the two pops of a frame are not one step each. Left and
  right are swapped exactly while an odd number of frames got a single sample
  (`PcmModel.SwappedExactly`). It can begin in two ways and no other: the first
  pop of a frame comes before a push and the second after it, or the decoder
  looks for room between the two pops and finds less than it needs, so that an
  odd number of samples goes in (`TornExactly`; runs: `SecondSplitSwapsBack`,
  `SingleSampleSwaps`).

## Model

| member | source | states |
|---|---|---|
| ControlHubs.Mcp23017.ReleaseReset | src/backend/src/controls.rs:492-514 | requests the line the first time, pulses it afterwards; a failed call leaves the line and the device where they were |
| ControlHubs.Mcp23017.Initialise | src/backend/src/controls.rs:518-526 | reset released, latch written, then the directions, stopping at the first failure |
| ControlHubs.Mcp23017.HoldsSetup | src/backend/src/controls.rs:531-538 | reads the directions back; true exactly if they are the configured ones |
| ControlHubs.Mcp23017.WriteLatch | src/backend/src/controls.rs:540-545 | opens the bus if needed and writes the hub's latch to the chip |
| ControlHubs.Mcp23017.SwitchPin | src/backend/src/controls.rs:961-997 | sets or clears one latch bit and writes the latch, or the whole setup if the chip was away; a failure restores the latch and marks the chip away |
| ControlHubs.Mcp23017.BringUp | src/backend/src/controls.rs:736-762 | sets a chip up and marks it available, or away with its bus closed |
| ControlHubs.Mcp23017.CheckSetup | src/backend/src/controls.rs:1159-1186 | keeps, sets up again or marks away an answering chip |
| ControlHubs.PwmOutput.Drive | src/backend/src/controls.rs:795-849 | opens the channel, kicks from off, applies the duty; marks the channel driven or closes it |
| ControlHubs.ControlHub.KnownControls | src/backend/src/controls.rs:612-621 | the entries in order without those whose id was used before, so ids are unique |
| ControlHubs.ControlHub.constructor | src/backend/src/controls.rs:605-728 | the hub built from controls, saved values and devices equals the model's start: states, one chip per expander, one output per channel, brought up |
| ControlHubs.ControlHub.Set | src/backend/src/controls.rs:898-949 | the result and the whole new state of `set`, with every refusal, equal the model's |
| ControlHubs.ControlHub.PutOnHardware | src/backend/src/controls.rs:953-1021 | hardware, availabilities and announcements after writing one control |
| ControlHubs.ControlHub.SetOverheated | src/backend/src/controls.rs:1042-1079 | one round over all controls, following or going back, as the model has it |
| ControlHubs.ControlHub.RetryUnavailable | src/backend/src/controls.rs:1127-1154 | answering chips checked, the others and the channels tried again, changes announced |
| ControlHubs.ControlHub.ShutDown | src/backend/src/controls.rs:1084-1122 | outputs that go off on exit disabled, requested reset lines pulled low |
| ControlHubs.ControlHub.RefreshAvailability | src/backend/src/controls.rs:853-873 | every state available exactly if its hardware is; returns those that changed |
| ControlDevices.InitialiseDrives | src/backend/src/controls.rs:516-526 | a setup without a failed call leaves the device driving exactly the configured pins at the hub's latch; pins, latch and availability in the hub's record do not change |
| ControlDevices.SwitchPinKeepsFaith | src/backend/src/controls.rs:961-997 | writing one pin keeps an answering chip either at all inputs or at the configured directions with the hub's latch |
| ControlDevices.CheckSetupKeepsFaith | src/backend/src/controls.rs:1159-1186 | reading the setup back keeps that, and an answering chip left available is driven |
| ControlDevices.BringUpKeepsFaith | src/backend/src/controls.rs:736-762 | bringing a chip up keeps that; a chip marked available is driven |
| ControlSetup.SetupDrivesNothingStale | src/backend/src/controls.rs:516-526 | directions are written over the hub's latch only, so no pin drives a stale level; with a reset line at hand a setup that fails leaves the device as it was or all inputs |
| ControlSetup.HoldingChipIsOnlyRead | src/backend/src/controls.rs:1159-1186 | a chip that holds its setup is only read |
| ControlDevices.PinsOnAfter | src/backend/src/controls.rs:973-978 | with distinct pins, the set of pins whose switches are on changes by exactly the switched pin |
| ControlDevices.PutOnHardwareAvailability | src/backend/src/controls.rs:985-1018 | availability stays exact, also for the other controls on the same chip |
| ControlDevices.DutyFollowsLevel | src/backend/src/controls.rs:240-252 | the duty cycle grows with the level, is the whole period at 100, at least the minimum unless off, and 0 where 0 is off |
| ControlEffects.DutyIsSpread | src/backend/src/controls.rs:240-252 | on is the whole period, off nothing, level 0 the least level or nothing, and a level from 1 to 100 the whole part of its share of the way from the least level to 100 |
| ControlEffects.FullIsWholePeriod | src/backend/src/controls.rs:240-252 | the value a boosted control is driven to is one it takes, and on a channel it is the whole period whatever its least level |
| ControlEffects.DriveKicksExactly | src/backend/src/controls.rs:795-849 | a channel that starts from off gets a kick at its whole period before its duty, if it is to have one, and no other channel does; opened only if it was closed |
| ControlRuns.StartIsSound | src/backend/src/controls.rs:605-728 | a new hub agrees with its devices, whatever fails while it is built |
| ControlEffects.DistinctKeepsFirst | src/backend/src/controls.rs:612-621 | every id of the entries is there once, with the first entry that has it, in their order |
| ControlEffects.StartsOff | src/backend/src/controls.rs:225-234 | without a saved value a control starts off, a slider at 0 and the backlight at 100 |
| ControlEffects.StartsRestored | src/backend/src/controls.rs:636-655 | a saved value of the control's kind is restored, a level at most at 100 |
| ControlEffects.SetSurvivesRestart | src/backend/src/controls.rs:898-949 | a value that was set is the one a control that restores has after a restart, boosted or not when it was set |
| ControlEffects.FirstSaysReset | src/backend/src/controls.rs:660-690 | a chip has a reset GPIO if and only if the first control on it names one |
| ControlRuns.RunKeepsSound | src/backend/src/controls.rs:516-546 | over every run of set, overheat, retry, shut down and devices forgetting their setup: an available chip's device is all inputs or has the configured directions and the hub's latch; with distinct pins that latch is the switch states; availabilities are exact; with distinct channels driven outputs play their states |
| ControlRuns.SetAnswersExactly | src/backend/src/controls.rs:898-949 | `set` is refused as unavailable if and only if shutting down or a call failed, as not found if and only if no control has the id, as invalid if and only if it is not on or off for a switch, a level from 0 to 100 for a slider; a refusal changes no value and saves none |
| ControlRuns.SetAnswersState | src/backend/src/controls.rs:927-948 | a `set` that is done answers the state the hub then holds and sent last: the new value, available, or the boosted one, with the new value saved |
| ControlRuns.RetryDrivesEverything | src/backend/src/controls.rs:1127-1186 | a retry before shutdown in which no call fails leaves every chip driven with the configured directions and every control available |
| ControlSetup.RetryLeavesDriven | src/backend/src/controls.rs:1127-1186 | a retry touches no channel that is driven and, without a failed call, no chip that drives its pins |
| ControlSetup.StartDrivesEverything | src/backend/src/controls.rs:605-728 | a start without a failed call leaves every chip driving its pins, every channel driven and every control available |
| ControlRuns.DrivenPinsShowStates | src/backend/src/controls.rs:1127-1186 | a driven chip with distinct pins has each configured pin as an output at its state's value |
| ControlDriving.SwitchPinDrivesExactly | src/backend/src/controls.rs:961-997 | a write that succeeds leaves the chip driving its pins if and only if it was away or its device had not fallen back to all inputs |
| ControlDriving.AlwaysDriven | src/backend/src/controls.rs:605-1079 | until shutdown, and with no device forgetting its setup, every available chip drives its configured pins at the latch, whatever calls fail |
| ControlDriving.SwitchesShow | src/backend/src/controls.rs:853-1079 | in such a run every available switch is an output pin at its state's value |
| ControlDriving.SetSwitchesPin | src/backend/src/controls.rs:898-949 | after such a run a `set` that is done and not boosted has the device's pin at the value set |
| ControlRuns.ShutDownHoldsExactly | src/backend/src/controls.rs:1112-1121 | after a shutdown without a failed call a chip's outputs are off if and only if its line was requested before or they were off already |
| ControlRuns.ShutDownHoldsChips | src/backend/src/controls.rs:1112-1121 | so after any run it puts every answering chip with a reset GPIO into reset |
| ControlRuns.ResetLineMissed | src/backend/src/controls.rs:492-514 | a start whose line request fails: a shutdown without a failed call then leaves a chip with a reset GPIO with its outputs on |
| ControlExit.StopOutputsExactly | src/backend/src/controls.rs:1087-1111 | a channel is stopped only if it is open and one of its controls goes off on exit; without a failed call exactly then; nothing else of it changes |
| ControlExit.ShutDownStopsExactly | src/backend/src/controls.rs:1081-1122 | after a shutdown without a failed call exactly these channels are stopped and all others play on |
| ControlExit.FansAfterExit | src/backend/src/controls.rs:1081-1122 | the same after any run from the start, for every channel then available |
| ControlRuns.NothingHappensAfterShutDown | src/backend/src/controls.rs:900-904 | after a shutdown no operation changes a state, announces, saves, touches a chip's picture or lifts a reset |
| ControlBroadcast.FoldReaches | src/backend/src/controls.rs:853-873 | changes that are true of a target and cover every difference fold any view into that target, in any order and number |
| ControlEffects.ChangesAreNews | src/backend/src/controls.rs:853-873 | what is announced is exactly the states that changed, each once |
| ControlEffects.QuietRetry | src/backend/src/controls.rs:1127-1154 | a retry that changes no state announces nothing |
| ControlSetup.SetSpeaksOnce | src/backend/src/controls.rs:927-1021 | a `set` that is done sends its own control's new state once, last, and before it only states of others |
| ControlBroadcast.SetTells | src/backend/src/controls.rs:898-1021 | what `set` announces turns the states before it into those after it, also when it fails and other controls of the chip grey out |
| ControlBroadcast.SubscriberSeesStates | src/backend/src/controls.rs:894-1079 | over every run, folding all changes sent since over the states at subscription gives exactly the current states |
| ControlBoost.StartKeepsNothingAside | src/backend/src/controls.rs:701-716 | a new hub keeps no value aside and has saved nothing, so the statements about own values hold from the start |
| ControlBoost.HotKeepsOwn | src/backend/src/controls.rs:1058-1064 | getting hot changes no own value and saves nothing, whatever fails; without a failure the boosted controls show full |
| ControlEffects.HotDrivesFull | src/backend/src/controls.rs:1042-1064 | after getting hot without a failed call every boosted channel runs at its whole period, and every boosted switch's pin is on in its chip's latch |
| ControlBoost.CoolDownKeepsOwnExactly | src/backend/src/controls.rs:1065-1077 | cooling down keeps a control's own value if and only if its hardware took it back or it was shown anyway |
| ControlBoost.CoolDownRestores | src/backend/src/controls.rs:1065-1077 | a cool-down without a failed call restores every own value and forgets all kept aside |
| ControlBoost.OwnValueLost | src/backend/src/controls.rs:1065-1077 | a run from start: a switch that is off gets hot, its chip stops answering, and after cooling down its own value is on |
| ControlBoost.SetChangesOwn | src/backend/src/controls.rs:927-948 | a successful `set`, boosted or not, changes the own value of its control only and saves it; a refused one changes none |
| ControlBoost.BoostRefinesPlainMap | src/backend/src/controls.rs:1038-1079 | for every run with answering cool-downs, own values are those of a plain map that `set` writes to, and the saved ones are the latest set |
| ControlBoost.LatestIsOwn | src/backend/src/controls.rs:927-948 | in that map the own value is the last one set, or the one before the run |
| ControlBoost.BoostIsShown | src/backend/src/controls.rs:1058-1077 | with answering hardware, boosted controls are on or at level 100 exactly while boosting and every other control shows its own value |
| PowerSupplies.PowerSupply.constructor | firmware/powersupply/RaspberryPower.c:849-876 | the globals after start equal the model's start from the EEPROM |
| PowerSupplies.PowerSupply.Timer1000ms | firmware/powersupply/RaspberryPower.c:484-527 | timers, battery seconds, watchdog count after one second |
| PowerSupplies.PowerSupply.Timer1ms | firmware/powersupply/RaspberryPower.c:529-563 | the debounce count and the millisecond clock, and the second when it is due |
| PowerSupplies.PowerSupply.Interpret | firmware/powersupply/RaspberryPower.c:579-721 | the state, relays, counters and settings after a command |
| PowerSupplies.PowerSupply.MainLoop | firmware/powersupply/RaspberryPower.c:723-841 | one whole pass equals the model's: timers, one transition, one command; it keeps the ranges and the battery lock's states |
| SupplyRuns.AlwaysInRange | firmware/powersupply/RaspberryPower.c:484-563 | over every run, all counters and timers stay in their ranges and the battery lock holds only in POWEROFF or IDLE |
| SupplyCounting.DebounceCounts | firmware/powersupply/RaspberryPower.c:529-535 | the debounce counter is the number of low millisecond samples since the last high one, or its full value after 1000 or if none was high |
| SupplyCounting.IgnitionOffExactly | firmware/powersupply/RaspberryPower.c:246-252 | ignition counts as off if and only if the pin is low and either all samples since start or the last 1000 were low |
| SupplyCounting.BatteryCounts | firmware/powersupply/RaspberryPower.c:493-503 | the battery counter is the number of consecutive low RUN seconds, capped at 255 |
| SupplyCounting.BatteryTripsExactly | firmware/powersupply/RaspberryPower.c:800-812 | the battery shutdown comes if and only if the last 60 seconds were seconds of RUN below the limit in force at each, and neither the watchdog nor the ignition is first |
| SupplyCounting.LockExactly | firmware/powersupply/RaspberryPower.c:484-503 | the lock comes with it and goes with the first second at which the ignition is off or the battery has 13 volts |
| SupplyCounting.LockKeepsOff | firmware/powersupply/RaspberryPower.c:732-833 | while the battery lock holds, a pass leaves POWEROFF or IDLE and neither switches on nor sleeps |
| SupplyCounting.LevelStep | firmware/powersupply/RaspberryPower.c:507-510 | one more tick or sign of life moves the minimum over all suffixes of 3 + signs - ticks as the counter moves |
| SupplyCounting.WatchdogCounts | firmware/powersupply/RaspberryPower.c:507-510 | in RUN, `piAlive` is that minimum since RUN began |
| SupplyCounting.WatchdogFiresExactly | firmware/powersupply/RaspberryPower.c:784-792 | RUN ends by watchdog if and only if over some stretch since RUN began the ticks outside service mode exceed the signs of life by three, and never before that |
| SupplyTimes.RelaysAreTold | firmware/powersupply/RaspberryPower.c:579-841 | over all runs each relay is what the states gone through and the commands heard last made of it |
| SupplyTimes.PiHasPowerExactly | firmware/powersupply/RaspberryPower.c:750-763 | in PIBOOT and RUN the Pi's relay is on if and only if no '5' came since PIBOOT was entered, or a '2' after it |
| SupplyTimes.IdleEndsExactly | firmware/powersupply/RaspberryPower.c:730-833 | IDLE goes on to POWERON exactly with the ignition on and no lock; the supply sleeps exactly with it off, no lock and the state's seconds over: 30 after the start, 2 after a power-on given up, else none |
| SupplyTimes.PowerOnEndsExactly | firmware/powersupply/RaspberryPower.c:738-763 | POWERON ends exactly with the ignition off or with its delay waited |
| SupplyTimes.PiBootsInTime | firmware/powersupply/RaspberryPower.c:738-763 | with the ignition on and no byte, PIBOOT is entered and the Pi gets its power with the very second in which the delay is waited |
| SupplyTimes.IgnitionBootsPi | firmware/powersupply/RaspberryPower.c:730-763 | from IDLE with the ignition on, no lock and no byte, PIBOOT with display and Pi on is reached within the delay's seconds and one more |
| SupplyTimes.BootEndsExactly | firmware/powersupply/RaspberryPower.c:764-780 | PIBOOT ends exactly with its 60th second or after the second '+', in RUN while the ignition is on, else in a POWEROFF of 15 seconds |
| SupplyTimes.RunEndsExactly | firmware/powersupply/RaspberryPower.c:780-815 | RUN ends exactly by the watchdog, in a POWEROFF of 5 seconds, or by the ignition or the battery, in one of 15 |
| SupplyTimes.OffEndsExactly | firmware/powersupply/RaspberryPower.c:815-830 | POWEROFF ends exactly with its seconds over or after Dig3, in IDLE with every relay off |
| SupplyTimes.SettingsAreLatest | firmware/powersupply/RaspberryPower.c:640-721 | over all runs delay, battery limit, service mode and debug messages are what was last commanded, at first what was validly stored or 3 seconds and 11.8 volts; all but the service mode are stored |
| SupplyTimes.SettingsSurvive | firmware/powersupply/RaspberryPower.c:849-876 | and a restart loads them again |
| SupplyPower.DisciplinedIsGood | firmware/powersupply/RaspberryPower.c:723-841 | over runs with relay commands only in PIBOOT, RUN or POWEROFF and no '*' below the running delay: IDLE has all relays off, POWERON at most the display |
| SupplyPower.RelaysAlwaysFit | firmware/powersupply/RaspberryPower.c:723-841 | the same of the relays alone holds whatever delay '*' sets |
| SupplyPower.CutsOffExactly | firmware/powersupply/RaspberryPower.c:565-595 | over all runs, the bootloader reset and the sleep come with the Pi's relay on if and only if a '2' from IDLE or POWERON still holds |
| SupplyPower.PiIsOffWhenHalted | firmware/powersupply/RaspberryPower.c:565-595 | so with relay commands only in PIBOOT, RUN or POWEROFF they come only with it off |
| SupplyPower.StrayRelayCommandCutsOff | firmware/powersupply/RaspberryPower.c:579-604 | a run with a '2' in IDLE that enters the bootloader with the Pi's relay on |
| SupplyPower.PowerOffTimeAddsUp | firmware/powersupply/RaspberryPower.c:813-833 | in POWEROFF the timer and the seconds seen add up to at least 15, or 5 after the watchdog, unless Dig3 was seen |
| SupplyPower.PiLosesPowerOnlyAfterItsTime | firmware/powersupply/RaspberryPower.c:813-833 | without '5' the Pi's relay drops only in POWEROFF, after those seconds or on Dig3 |
| SupplyPower.RankFalls | firmware/powersupply/RaspberryPower.c:484-563 | with the ignition low and no byte, a rank falls by at least one with every second tick and never rises, until the supply sleeps |
| SupplyPower.TicksMakeSeconds | firmware/powersupply/RaspberryPower.c:537-563 | as long as the supply is awake, every 1001 milliseconds that come are a second it counts |
| SupplyPower.SupplyGoesToSleep | firmware/powersupply/RaspberryPower.c:732-833 | from every reachable state, after 1001 milliseconds for each second of its rank and one more, a quiet supply is in IDLE with all relays off and switched off; the rank is at most 79 |
| SupplyPower.EightySecondsAreEnough | firmware/powersupply/RaspberryPower.c:732-833 | so every such run that is followed by 80 times 1001 quiet milliseconds ends in that state |
| SupplyPower.SleepsExactly | firmware/powersupply/RaspberryPower.c:732-833 | after any run with any commands, that many quiet milliseconds put the supply to sleep if and only if it is at no moment in POWERON with the delay below the seconds waited |
| SupplyPower.FittingSleeps | firmware/powersupply/RaspberryPower.c:732-833 | so it sleeps whenever the seconds waited are within the delay at the start of the quiet, whatever relays were switched and whether or not the ignition still counts as on |
| SupplyPower.SettledSleepsExactly | firmware/powersupply/RaspberryPower.c:732-833 | after any run that ends with the ignition counted as off, it does if and only if it is not in that state of POWERON already |
| SupplyPower.LoweredDelayNeverSleeps | firmware/powersupply/RaspberryPower.c:736-763 | in that state a quiet supply stays in POWERON for ever |
| SupplyPower.LoweredDelayIsPossible | firmware/powersupply/RaspberryPower.c:736-763 | a run from start that gets there: ignition on, two seconds, then '*' with a shorter delay |
| SupplyPower.LeftOverNeverSleeps | firmware/powersupply/RaspberryPower.c:734-763 | an IDLE with the seconds waited above the delay goes there as well, as long as the ignition still counts as on |
| SupplyPower.LeftOverIsPossible | firmware/powersupply/RaspberryPower.c:734-833 | a run from start into such an IDLE: ignition on, two seconds, '$', then '*' with a shorter delay |
| SerialPorts.SerialPort.UdreInterrupt | firmware/powersupply/serial.c:66-82 | the transmit handler on the ring and the data register |
| SerialPorts.SerialPort.RxInterrupt | firmware/powersupply/serial.c:84-93 | the receive handler: stored if there is room, else only the unused slot is written |
| SerialPorts.SerialPort.WaitForRoom | firmware/powersupply/serial.c:97-112 | true exactly if one of four looks, a millisecond apart, finds room; else the buffer is dropped |
| SerialPorts.SerialPort.SendByte | firmware/powersupply/serial.c:95-129 | with interrupts in every delay: true exactly if room was found, and then everything sent before is still on its way in order and the byte follows |
| SerialPorts.SerialPort.GetDataInWithin | firmware/powersupply/serial.c:180-192 | the oldest waiting byte; with none waiting, none if and only if none comes in time, else the first to arrive, those that came in the same millisecond waiting on as far as there is room |
| SerialProofs.TxNextKeepsSound | firmware/powersupply/serial.c:66-129 | every step of either side keeps: bytes sent are those on the wire, in the register and in the ring, in order; the register is written only when empty |
| SerialProofs.WireIsInOrder | firmware/powersupply/serial.c:66-129 | in every interleaving what went out is the beginning of what was sent, and exactly the counted bytes are still to come |
| SerialProofs.RoomSends | firmware/powersupply/serial.c:114-126 | a byte is sent whenever there is room for it, and once |
| SerialProofs.DrainSendsAll | firmware/powersupply/serial.c:66-82 | with nothing more sent, the interrupts alone bring every byte out, one round for each counted, and then switch themselves off |
| SerialProofs.RxNextIsQueue | firmware/powersupply/serial.c:84-174 | each step on the ring is the step of a queue |
| SerialProofs.RxIsQueue | firmware/powersupply/serial.c:84-174 | over all runs the receive ring is a queue of capacity 127 that turns away only the newest byte |
| SerialProofs.KeptComesOut | firmware/powersupply/serial.c:84-174 | every byte kept comes out once and in order; one is turned away only while 127 wait |
| PcmSource.ExternalPcmSource.PushAll | src/backend/src/audio_source.rs:195-206 | pushes the samples in order, all of them unless a stop is seen at a full ring |
| PcmSource.ExternalPcmSource.DecodeIntoRing | src/backend/src/audio_source.rs:163-209 | for every split into reads and every timing of the others: pushes in order a prefix of the samples of the longest whole-frame prefix and returns its length, all of it without stop or error; with an output that keeps taking it is over after a tick for each read and sample |
| PcmSource.ExternalPcmSource.WaitUntilDrained | src/backend/src/audio_source.rs:213-221 | true only once the ring is empty, false only with a stop and samples left |
| PcmSource.ExternalPcmSource.RunDecoder | src/backend/src/audio_source.rs:85-109 | finished only when the whole track was decoded and every pushed sample taken out, never after a stop seen before, and always in time with an output that keeps taking, no stop and no read error; frames pulled whole are the pairs 2k, 2k+1 |
| PcmModel.CutAnywhere | src/backend/src/audio_source.rs:181-194 | decoding whole frames now and keeping the rest for the next read gives the samples of all bytes together |
| PcmModel.SampleIsLittleEndian | src/backend/src/audio_source.rs:186-193 | the two bytes of any 16-bit value, the low one first, give that value on a scale of 32767 |
| PcmModel.SamplesAreWholeFrames | src/backend/src/audio_source.rs:181-194 | the samples are all those of whole frames, the k-th made of the bytes 2k and 2k+1 |
| PcmModel.ReadsJoin | src/backend/src/audio_source.rs:173-179 | reads are joined in order for as long as they give bytes |
| PcmModel.OneRead | src/backend/src/audio_source.rs:173-179 | reading ends with the first read that gives no bytes or an error, and fails only with an error |
| PcmModel.LeftStaysLeft | src/backend/src/audio_mixer.rs:175-178 | frames heard as pairs of what was taken carry the samples 2k and 2k+1 of the track |
| PcmModel.TogetherIsFrame | src/backend/src/audio_mixer.rs:175-178 | two pops with nothing in between are one frame of the mixer's model |
| PcmModel.SamplesAddUp | src/backend/src/audio_mixer.rs:175-178 | in every interleaving of looking, storing and popping, a frame heard has taken two samples, but for those that got a single one |
| PcmModel.SwappedExactly | src/backend/src/audio_mixer.rs:175-178 | in every interleaving, frames begin at an odd sample if and only if an odd number of frames got a single sample |
| PcmModel.FrameCarries | src/backend/src/audio_mixer.rs:175-178 | after h frames heard, l of them with a single sample, the next carries the samples 2h - l and 2h - l + 1; a single one goes to both sides, or to the right if the first pop found none |
| PcmModel.TrackIsHeardExactly | src/backend/src/audio_source.rs:195-206 | what is heard is the pushed samples two by two if and only if no frame got a single sample |
| PcmModel.TornExactly | src/backend/src/audio_source.rs:195-206 | over all runs on a ring of whole frames, an odd number of samples is pushed or a frame gets a single one, at some moment, if and only if the decoder looked between two pops and found less room than it needed, or a push came between a first pop that found nothing and the second |
| PcmModel.UntornIsTrack | src/backend/src/audio_source.rs:195-206 | without such a frame the track is heard two by two, however pops and pushes fall |
| PcmModel.SingleSampleSwaps | src/backend/src/audio_source.rs:195-206 | a run in which no frame begins on an empty ring: a push of one sample, which a frame then meets alone, swaps left and right |
| PcmModel.SecondSplitSwapsBack | src/backend/src/audio_mixer.rs:175-178 | a run in which a second push between two pops puts right what the first has swapped, and no frame finds its right sample missing |
| MixerProofs.FrameByFrameIsBulk | src/backend/src/audio_mixer.rs:152-203 | n renders of one frame give the samples and the mixer of one render of n frames, with sources that end, fade or are muted in between |
| MixerProofs.FillIsOneRender | src/backend/src/cpal_audio_engine.rs:443-472 | an output of whole frames carries exactly one bulk render, laid out on the device's channels |
| MixerSound.DeviceGetsRender | src/backend/src/cpal_audio_engine.rs:443-472 | the k-th group of the device's channels carries the k-th frame: front left and right, rear left and right at their level from four channels on, the middle on a single one, silence on the rest |
| MixerSound.SlotAdds | src/backend/src/audio_mixer.rs:161-187 | a source adds its next two samples, left and right, in front at its gain and behind at its rear gain |
| MixerSound.AtRestAdds | src/backend/src/audio_mixer.rs:161-187 | at rest it does so at the very gains it has |
| MixerSound.SlotGoesOn | src/backend/src/audio_mixer.rs:158-180 | it goes on by two samples, unless it is at rest and silent |
| MixerSound.SourcesAddUp | src/backend/src/audio_mixer.rs:152-192 | each source adds to the others what it gives alone |
| MixerSound.StreamIsHeard | src/backend/src/audio_mixer.rs:152-192 | the k-th frame of a source alone carries its samples 2k and 2k+1 at the gains of its fade, limited to full scale |
| MixerSound.PlayedBuffersGo | src/backend/src/audio_mixer.rs:193-203 | a ready buffer leaves its slot exactly when it has been played |
| MixerProofs.AdvanceKeepsFading | src/backend/src/audio_mixer.rs:213-224 | each frame keeps gains in [0, 1] with gain + remaining * step = target and moves neither by more than 1/fade_frames |
| MixerProofs.RetargetStartsFading | src/backend/src/audio_mixer.rs:114-126 | retargeting, also mid-fade, starts such a fade at the present gains |
| MixerProofs.FadeIsStraight | src/backend/src/audio_mixer.rs:213-224 | a fade is a straight line that equals its targets exactly from its last frame on |
| MixerProofs.MutedKeepsItsSamples | src/backend/src/audio_mixer.rs:161-167 | a muted source at rest is not pulled and not heard until it is retargeted |
| MixerProofs.AlwaysSound | src/backend/src/audio_mixer.rs:62-224 | over every run of adding, fading, removing, refilling and rendering, all sources keep those bounds and none that ended is kept |
| MixerProofs.AddPlayRemove | src/backend/src/audio_mixer.rs:75-203 | a source added, played for any number of frames and removed leaves the mixer as if it had never been there |
| MixerProofs.LevelsAreLocal | src/backend/src/audio_mixer.rs:114-203 | retargeting one source changes no other, however long all play on |
| MixerSound.BuffersAreFrames | src/backend/src/audio_mixer.rs:75-89 | a ready buffer is refused as such exactly if it is empty or ends in half a frame |
| MixerSound.MixerIsNew | src/backend/src/audio_mixer.rs:62-73 | eight empty slots, and fades of the milliseconds given, at least one frame |
| AudioMixers.AudioMixer.AddSource | src/backend/src/audio_mixer.rs:75-89 | the first free slot taken, or the error |
| AudioMixers.AudioMixer.AddStreamSource | src/backend/src/audio_mixer.rs:91-102 | the first free slot taken, or the error |
| AudioMixers.AudioMixer.SetLevels | src/backend/src/audio_mixer.rs:114-126 | one source retargeted, or the error and nothing changed |
| AudioMixers.AudioMixer.RemoveSource | src/backend/src/audio_mixer.rs:128-132 | one slot emptied, or the error |
| AudioMixers.AudioMixer.RenderFrames | src/backend/src/audio_mixer.rs:152-203 | the nested loops over the output and the slots give the samples and the slots of the model's render |
| AudioMixers.AudioMixer.ApplyCommand | src/backend/src/cpal_audio_engine.rs:475-500 | the mixer after a command and the answer to an Add, refused if cancelled |
| MixerSound.AddedIsHeard | src/backend/src/cpal_audio_engine.rs:476-489 | a track added to an empty mixer is heard sample by sample as it is |
| AudioMixers.AudioMixer.FillOutput | src/backend/src/cpal_audio_engine.rs:432-473 | the waiting commands in order, then one render for each chunk of channels, also a short last one |
| EngineProofs.HeadHitsItsOwn | src/backend/src/cpal_audio_engine.rs:483-498 | the command at the head of a consistent queue changes the source its own Add created as asked, and no other |
| EngineProofs.StepKeepsConsistent | src/backend/src/cpal_audio_engine.rs:214-253 | every step of callers and callback keeps queue, answers, playbacks and slots consistent, and leaves an orphan only if it answers too late or drops a live playback |
| EngineProofs.CommandsHitTheirOwn | src/backend/src/cpal_audio_engine.rs:286-357 | in every run of starts, timeouts, cancellations, level changes, stops and dropped playbacks, each SetLevels or Remove acts on the source its own Add created |
| EngineProofs.OrphanExactly | src/backend/src/cpal_audio_engine.rs:233-284 | a source is left in its slot with nobody to remove it if and only if it was added and answered after its caller gave up, before the adding or since, or its playback was dropped while live |
| EngineProofs.AnOrphanIsPossible | src/backend/src/cpal_audio_engine.rs:239-245 | five steps that leave one: the flag is looked at, the caller gives up, the source is added and answered |
| EngineProofs.AddedBeforeGivingUp | src/backend/src/cpal_audio_engine.rs:482-487 | and five in which the caller gives up between the adding and the answer |
| EngineProofs.AnAbandonedOneStays | src/backend/src/media_player.rs:1085-1090 | six steps that leave one the other way: the start succeeds and its playback is stored over |
| EngineProofs.QuietLeavesOnlyOrphans | src/backend/src/cpal_audio_engine.rs:326-357 | when all playbacks are stopped, refused, given up or dropped, the queue is empty and no answer is under way, only slots of orphans are taken |
| EngineStops.RemovedAfterSilence | src/backend/src/cpal_audio_engine.rs:326-345 | in every run a source that is removed has been sent to silence, front and rear, by the last change of its levels |
| EngineStops.CancelledInTime | src/backend/src/cpal_audio_engine.rs:482-487 | a start whose flag is set when the callback looks gets no source and an error |
| EngineStops.StartedAtFull | src/backend/src/cpal_audio_engine.rs:482-487 | any other gets the first free slot at full gain, or an error if there is none |
| EngineStops.LevelsArrive | src/backend/src/cpal_audio_engine.rs:314-323 | levels asked of a live playback are, clamped to 0 and 1, the ones its own source then fades to, front and rear, and no other source changes |
| EngineStops.SilenceArrives | src/backend/src/cpal_audio_engine.rs:326-340 | a stop sends that source to silence |
| EngineStops.EndArrives | src/backend/src/cpal_audio_engine.rs:341-345 | and then empties its slot and no other |
| EngineStops.FadesTakeAQuarter | src/backend/src/cpal_audio_engine.rs:94 | in every run a fade takes a quarter of a second of frames |
| MediaLibraries.Database.UpsertScannedMedia | src/backend/src/database.rs:409-445 | the row inserted, or updated keeping what could not be read |
| MediaLibraries.Database.ScannedMediaByPath | src/backend/src/database.rs:447-467 | a path is known if and only if the source has a row for it, with the id and fingerprint of that row |
| MediaLibraries.Database.RescanFolder | src/backend/src/database.rs:979-1059 | the whole scan with its skipped, read and missing files equals the model's |
| MediaProofs.RescanIsFullRescan | src/backend/src/database.rs:979-1059 | an incremental rescan whose reads all succeed leaves the rows and statuses of one that reads every file |
| MediaProofs.RescanAfterAnyPast | src/backend/src/database.rs:979-1059 | that holds after any earlier scans, cancelled, with failed reads or stopped at any step |
| MediaReads.UnchangedIsNotRead | src/backend/src/database.rs:1003-1010 | a known file with its stored fingerprint changes no row, whatever the reader would answer |
| MediaReads.OnlyChangedAreRead | src/backend/src/database.rs:979-1059 | so what the reader says of unchanged files makes no difference to a rescan |
| MediaReads.UnchangedKeepRows | src/backend/src/database.rs:979-1059 | a rescan that finds only unchanged files changes nothing but statuses |
| MediaReads.RescanStatuses | src/backend/src/database.rs:1043-1058 | whatever could be read, a rescan leaves what it found available, the source's other rows missing and otherwise as they were, and other sources untouched |
| MediaReads.WhatIsReadIsStored | src/backend/src/database.rs:1011-1041 | what was read of a file is stored, its fingerprint only if all was |
| MediaReads.FailedNewFile | src/backend/src/database.rs:1011-1041 | a new file that cannot be read gets its name as title and nothing else |
| MediaProofs.PastKeepsCache | src/backend/src/database.rs:979-1059 | whatever scans came before, every stored fingerprint stands for the reader's present answers |
| MediaProofs.UnfinishedScanMissesNothing | src/backend/src/database.rs:993-1042 | a scan stopped at any step turns no row MISSING and loses none |
| MediaProofs.FullRescanStatuses | src/backend/src/database.rs:1043-1058 | after a scan exactly the found files of the source are available, the others missing, other sources untouched |
| MediaProofs.FailedReadIsTriedAgain | src/backend/src/database.rs:409-445 | a failed read keeps what was stored and leaves no fingerprint, so the next scan reads the file again |
| Playlists.Database.AddPlaylistEntry | src/backend/src/database.rs:570-585 | the new entry gets the position after the last one, or the constraint fails |
| Playlists.Database.RemovePlaylistEntry | src/backend/src/database.rs:625-660 | for any visiting orders of the two updates: the entry gone, the rest at 0..n-1 in the same order with their media, exactly the references to it cleared, other playlists untouched |
| Playlists.Database.DeletePlaylist | src/backend/src/database.rs:610-620 | the playlist, its entries and its place gone, or everything as before |
| Playlists.Database.SaveResumeState | src/backend/src/database.rs:690-727 | the last place stored, and as the playlist's own place |
| PlaylistProofs.AddAppends | src/backend/src/database.rs:570-585 | in a playlist at 0..n-1 the next position is n and free, and the entry goes to the end |
| PlaylistProofs.FreeIsUnique | src/backend/src/database.rs:644-647 | the check of one row passes if and only if UNIQUE (playlist_id, position) holds with the row changed |
| PlaylistProofs.UpdateSucceedsExactly | src/backend/src/database.rs:644-657 | an update row by row succeeds if and only if UNIQUE holds after each of its rows |
| PlaylistProofs.UpdateSucceeds | src/backend/src/database.rs:644-657 | an update row by row succeeds in every visiting order if no new position meets an old one or another new one |
| PlaylistProofs.RemovalClosesGap | src/backend/src/database.rs:644-657 | both updates of a removal succeed in every visiting order and close the gap, keeping the order |
| PlaylistProofs.OneStepNeedsPositionOrder | src/backend/src/database.rs:644-647 | moving up in a single update succeeds if and only if the rows are visited in position order |
| PlaylistRuns.AddKeepsOrderly | src/backend/src/database.rs:570-585 | in orderly tables the next position is always free, and adding keeps all playlists at 0..n-1 |
| PlaylistRuns.RemoveKeepsOrderly | src/backend/src/database.rs:625-660 | in orderly tables a removal never fails, whatever orders its rows come in, and keeps all playlists at 0..n-1 and all references |
| PlaylistRuns.RemovalKeepsUnique | src/backend/src/database.rs:639-657 | in orderly tables no row of a removal's two updates leaves a position taken twice, whatever orders they come in |
| PlaylistRuns.AlwaysOrderly | src/backend/src/database.rs:570-727 | over every run of adding, removing, deleting and saving places from empty tables, every playlist is at 0..n-1 and every reference holds |
| PlaylistProofs.WithoutEntryKeepsReferences | src/backend/src/database.rs:639-643 | removing an entry forgets exactly the places at it, keeps their playlists, and leaves all else; a matching last place stays one |
| PlaylistProofs.DeletePlaylistExactly | src/backend/src/database.rs:607-620 | deleting fails if and only if the last place is an entry of the playlist stored under another's name; else exactly the playlist, its entries and the places at them are gone |
| PlaylistRuns.DeletionCanFail | src/backend/src/database.rs:607-620 | a run of five operations after which the second playlist cannot be deleted |
| Polylines.DecodePolyline6 | resources/tools/demo/demo_gps.py:43-61 | the nested loops give the decoded points in degrees, none where an index error is raised |
| PolylineProofs.OrAdds | resources/tools/demo/demo_gps.py:51 | or-ing in bits above all those present adds them |
| PolylineProofs.NumberReadsChunks | resources/tools/demo/demo_gps.py:48-54 | the chunks of a number, in any surroundings, are read as that number and to their end |
| PolylineProofs.RoundTrip | resources/tools/demo/test_demo_gps.py:15-27 | decoding inverts the encoding for every list of integer points, consuming the whole string |
| Polylines.RoundTripInDegrees | resources/tools/demo/demo_gps.py:60 | what is decoded are the degrees of the points encoded, latitude first |
| PolylineProofs.DecodesExactly | resources/tools/demo/demo_gps.py:45-60 | decoding succeeds if and only if the string ends with the end of a number and holds an even count of them, and gives half as many points |
| Drives.Drive | resources/tools/demo/demo_gps.py:126-147 | the drive ends, starts at 0, and from fix to fix the odometer goes on by speed times step across any stretches, until less than one step is left |
| Drives.GoOn | resources/tools/demo/demo_gps.py:139-147 | a step uses up exactly its metres or reaches the destination |
| Drives.EvenSpeed | resources/tools/demo/demo_gps.py:126-147 | at one speed the k-th fix is k steps down the road, and never past its end |

## Left out

- I2C, sysfs and GPIO openers, register addresses, little-endian byte pairs, settle times: the two registers of an MCP23017 are sets of pins, a call only succeeds or fails.
- Two chips that share one reset line: each chip has its own.
- Reasons of errors, logging, `missing_reported`: only which error it is.
- `Control::from_config`: the field checks are the precondition `ValidControl` of a configuration; entries with a known id are skipped as the source does.
- ControlBoost.BoostRefinesPlainMap: assumes that hardware answers while cooling down (`Answering`); without that it is false, see `OwnValueLost`, and `CoolDownKeepsOwnExactly` says exactly when.
- SupplyPower.SupplyGoesToSleep: promises the relays off only for runs with no relay command outside PIBOOT, RUN and POWEROFF and no '*' below the running delay; `StrayRelayCommandCutsOff` and `LoweredDelayIsPossible` show why. That the supply sleeps is `SleepsExactly` for all runs.
- A database that fails to save or load a control state: saving works or no database is configured.
- A subscriber that lags more than 64 changes behind: the broadcast channel is a growing list.
- Register setup, ADC, LEDs, telegrams, status texts and counters that are only printed: inputs, or nothing at all.
- The wait for the bytes that follow a command: an input carries those that come in time.
- `Int1msCount`: an input says whether a millisecond is waiting, however many are.
- SerialPorts.SerialPort.SendByte: promises the order of the bytes only when it answers true; the overflow branch, which it has, drops the buffer by design and may write over a byte in the register.
- `SendBytes`, `SendString`, `WaitSendBufferEmpty`: loops over `SendByte`.
- f32 rounding, NaN: samples and gains are reals, a clamp has no third case.
- FFmpeg, its exit and being killed, `Drop`, thread start and join: the bytes read and the stop flag are inputs.
- How long the decoder sleeps: that it ends is stated for an output that takes at least a frame in every tick (`Lively`).
- The output stream failing (`StreamFault`): after it no command is applied at all.
- `set_gain`, `pause`, `resume`: `set_levels` with fixed values.
- Device enumeration, sample formats of cpal, the conversion of a sample to them.
- SQL text, transactions, migrations, search, covers on disk, walking directories, ffprobe: tables are maps of rows, a scan gets the files it found in order.
- Stopping inside a row or inside the closing transaction: each is stored as a whole or not at all.
- The count of files that a scan returns, and its log.
- `created_at` and names of playlists, renaming, positions in milliseconds of a resume place.
- The haversine distance and bearing, `sentence`, `fix`, Valhalla: `Drives.Drive` gets the length of each stretch.
- Drives.Drive: demands positive speeds; at a speed of zero the generator never ends, and `plan` writes none.
- Media player, voice, navigation, backend power supply, camera, gRPC services: not part of this model.
