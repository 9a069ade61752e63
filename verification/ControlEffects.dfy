/** What the hub's values come to on the hardware and what it loads, keeps and
    announces, each in terms of its own. */
module ControlEffects {
  import opened ControlModel
  import opened ControlDevices
  import opened ControlRuns
  import opened ControlBoost

  // ------------------------------------------------------------- duty cycles

  /** `part` is the whole part of `percent` hundredths of `whole`. */
  predicate IsShare(part: nat, whole: nat, percent: nat) {
    100 * part <= whole * percent < 100 * part + 100
  }

  predicate IsSpread(duty: nat, periodNs: nat, minLevel: nat, level: nat, up: nat)
    requires minLevel <= 100
  {
    IsShare(up, 100 - minLevel, level) && IsShare(duty, periodNs, minLevel + up)
  }

  lemma ShareIs(whole: nat, percent: nat)
    ensures IsShare(Share(whole, percent), whole, percent)
  {
  }

  /** On and off are all and nothing, a level from 1 to 100 the share of the
      period that it has of the way from the least level up to 100, and 0 is
      the least level or off. */
  lemma DutyIsSpread(value: Value, periodNs: nat, minLevel: nat, offAtZero: bool)
    requires minLevel <= 100
    ensures var duty := PwmDutyNs(value, periodNs, minLevel, offAtZero);
      && (value == On(true) ==> duty == periodNs)
      && (value == On(false) ==> duty == 0)
      && (value == Level(0) && offAtZero ==> duty == 0)
      && (value == Level(0) && !offAtZero ==> IsShare(duty, periodNs, minLevel))
      && (value.Level? && 0 < value.level <= 100 ==>
            exists up: nat :: IsSpread(duty, periodNs, minLevel, value.level, up))
  {
    hide Share, IsShare;
    assert IsShare(0, 100 - minLevel, 0) && Percent(0, minLevel, false) == minLevel by { WholeShare(100 - minLevel); ShareIs(100 - minLevel, 0); }
    WholeShare(periodNs);
    WholeShare(100 - minLevel);
    if value.Level? {
      var up := Share(100 - minLevel, Capped(value.level));
      ShareIs(100 - minLevel, Capped(value.level));
      ShareIs(periodNs, minLevel + up);
      ShareIs(periodNs, minLevel);
      if 0 < value.level <= 100 {
        assert IsSpread(PwmDutyNs(value, periodNs, minLevel, offAtZero), periodNs, minLevel, value.level, up);
      }
    }
  }

  /** Full is the whole period on every channel. */
  lemma FullIsWholePeriod(c: Control, periodNs: nat, minLevel: nat, offAtZero: bool)
    requires minLevel <= 100
    ensures Takes(c, Full(c)) && PwmDutyNs(Full(c), periodNs, minLevel, offAtZero) == periodNs
  {
    hide Share;
    WholeShare(periodNs);
    WholeShare(100 - minLevel);
  }

  // -------------------------------------------------------------------- kick

  /** A fan that starts from off, where a kick is wanted. */
  predicate Kicks(ch: Channel, b: Binding, previous: Value, value: Value)
    requires b.Pwm? && b.minLevel <= 100
  {
    b.kick && DutyOf(b, value) > 0 && (!ch.out.available || DutyOf(b, previous) == 0)
  }

  /** Driving a channel makes one call to open it, one to kick it and one for
      its duty, the first two only if needed; if that for the duty fails, the
      kick has the channel at its whole period. */
  lemma DriveKicksExactly(ch: Channel, answers: nat -> bool, b: Binding, previous: Value, value: Value)
    requires b.Pwm? && b.minLevel <= 100
    ensures var r := DriveChannel(ch, answers, b, previous, value);
      var opening, kick := if ch.out.open then 0 else 1, if Kicks(ch, b, previous, value) then 1 else 0;
      && (r.1 ==> r.0.calls.clock == ch.calls.clock + opening + kick + 1)
      && (!r.1 && r.0.calls.clock == ch.calls.clock + opening + kick + 1 ==>
            r.0.fan == if kick == 1 then Fan(b.periodNs, b.periodNs, true) else ch.fan)
      && (!r.1 && r.0.calls.clock != ch.calls.clock + opening + kick + 1 ==> r.0.fan == ch.fan)
      && r.0.out == (if r.1 then Output(true, true) else Output(false, false))
  {
    hide DutyOf;
  }

  // ------------------------------------------------------------- getting hot

  /** Chips and channels that answer, and go on answering. */
  predicate Answers(c: Control, h: Hub) {
    && (c.binding.Mcp23017? ==> c.binding.chip in h.chips && h.chips[c.binding.chip].available)
    && (c.binding.Pwm? ==> c.binding.pwm in h.outputs && h.outputs[c.binding.pwm].available)
  }

  lemma WriteKeepsAnswers(cfg: Config, h: Hub, index: nat, value: Value, i: nat)
    requires Wired(cfg, h) && index < |cfg.controls| && i < |cfg.controls|
    requires PutOnHardware(cfg, h, index, value).1 && (Answers(cfg.controls[i], h) || i == index)
    ensures Answers(cfg.controls[i], PutOnHardware(cfg, h, index, value).0)
  {
    hide SwitchPin, DriveChannel, PutOnHardware;
    PutOnHardwareRig(cfg, h, index, value);
    PutOnHardwareChannel(cfg, h, index, value);
  }

  lemma FollowKeepsAnswers(cfg: Config, h: Hub, k: nat, i: nat)
    requires Wired(cfg, h) && k < |cfg.controls| && i < |cfg.controls|
    requires Follow(cfg, h, k, true).world.calls.failed == h.world.calls.failed
    requires Answers(cfg.controls[i], h) || (i == k && cfg.controls[i].boost)
    ensures Answers(cfg.controls[i], Follow(cfg, h, k, true))
  {
    hide PutOnHardware, Fitted;
    if cfg.controls[k].boost {
      var h0, target := SetAside(cfg, h, k, true), Target(cfg, h, k, true);
      PutOnHardwareEffect(cfg, h0, k, target);
      WriteKeepsAnswers(cfg, h0, k, target, i);
    }
  }

  lemma {:induction false} HotAnswers(cfg: Config, h: Hub, k: nat, i: nat)
    requires Wired(cfg, h) && k <= |cfg.controls| && i < |cfg.controls| && cfg.controls[i].boost
    requires FollowFrom(cfg, h, k, true).world.calls.failed == h.world.calls.failed
    requires Answers(cfg.controls[i], h) || k <= i
    ensures Answers(cfg.controls[i], FollowFrom(cfg, h, k, true))
    decreases |cfg.controls| - k
  {
    hide Follow, Fitted, Answers;
    if k < |cfg.controls| {
      var next := Follow(cfg, h, k, true);
      FollowValues(cfg, h, k, true);
      FollowOnlyFails(cfg, next, k + 1);
      if Answers(cfg.controls[i], h) || i == k {
        FollowKeepsAnswers(cfg, h, k, i);
      }
      HotAnswers(cfg, next, k + 1, i);
    }
  }

  lemma {:induction false} FollowOnlyFails(cfg: Config, h: Hub, k: nat)
    requires Wired(cfg, h) && k <= |cfg.controls|
    ensures var r := FollowFrom(cfg, h, k, true);
      h.world.calls.failed <= r.world.calls.failed && r.boosting == h.boosting && r.shuttingDown == h.shuttingDown
    decreases |cfg.controls| - k
  {
    hide Follow, Fitted;
    if k < |cfg.controls| {
      FollowValues(cfg, h, k, true);
      FollowOnlyFails(cfg, Follow(cfg, h, k, true), k + 1);
    }
  }

  /** After getting hot without a failed call every boosted fan runs at its
      whole period, and every boosted switch is on in its chip's latch. */
  lemma {:induction false} HotDrivesFull(cfg: Config, h: Hub, i: nat)
    requires Sound(cfg, h) && UniqueIds(cfg.controls) && KeptAside(cfg, h) && !h.boosting && !h.shuttingDown
    requires SetOverheated(cfg, h, true).world.calls.failed == h.world.calls.failed
    requires i < |cfg.controls| && cfg.controls[i].boost
    ensures var r := SetOverheated(cfg, h, true); var b := cfg.controls[i].binding;
      && (b.Pwm? && DistinctChannels(cfg.controls) ==>
            b.pwm in r.world.fans && r.world.fans[b.pwm] == Fan(b.periodNs, b.periodNs, true))
      && (b.Mcp23017? && DistinctPins(cfg.controls) ==> b.chip in r.chips && r.chips[b.chip].available && b.pin in r.chips[b.chip].latch)
  {
    hide Sound, FollowFrom, Fitted, KeptAside, UniqueIds, DistinctPins, DistinctChannels;
    SoundIsWired(cfg, h);
    var r := SetOverheated(cfg, h, true);
    SetOverheatedKeepsSound(cfg, h, true);
    SoundIsWired(cfg, r);
    HotKeepsOwn(cfg, h);
    HotAnswers(cfg, h.(boosting := true), 0, i);
    FollowOnlyFails(cfg, h.(boosting := true), 0);
    assert r.states[i].value == Full(cfg.controls[i]);
    ShowsFull(cfg, r, i);
  }

  lemma ShowsFull(cfg: Config, r: Hub, i: nat)
    requires Sound(cfg, r) && i < |cfg.controls| && !r.shuttingDown && Answers(cfg.controls[i], r)
    requires r.states[i].value == Full(cfg.controls[i])
    ensures var b := cfg.controls[i].binding;
      && (b.Pwm? && DistinctChannels(cfg.controls) ==>
            b.pwm in r.world.fans && r.world.fans[b.pwm] == Fan(b.periodNs, b.periodNs, true))
      && (b.Mcp23017? && DistinctPins(cfg.controls) ==> b.chip in r.chips && r.chips[b.chip].available && b.pin in r.chips[b.chip].latch)
  {
    hide PinsOf, Faithful, WellUsed, DistinctPins, DistinctChannels, PwmDutyNs;
    var c, b := cfg.controls[i], cfg.controls[i].binding;
    assert Fitted(c, r.states[i].id, r.chips.Keys, r.outputs.Keys);
    if b.Pwm? {
      FullIsWholePeriod(c, b.periodNs, b.minLevel, b.offAtZero);
    }
    if b.Mcp23017? && DistinctPins(cfg.controls) {
      assert r.states[i].value == On(true);
      assert b.pin in PinsOn(cfg.controls, r.states, b.chip);
    }
  }

  // ---------------------------------------------------------------- at start

  predicate IsFirst(controls: seq<Control>, c: Control) {
    IndexOf(controls, c.id) < |controls| && controls[IndexOf(controls, c.id)] == c
  }

  predicate Has(controls: seq<Control>, id: string) { IndexOf(controls, id) < |controls| }

  /** The index does not change with entries behind it. */
  lemma IndexStays(controls: seq<Control>, id: string)
    requires controls != []
    ensures var n := |controls| - 1;
      IndexOf(controls, id) == if Has(controls[..n], id) then IndexOf(controls[..n], id) else if controls[n].id == id then n else n + 1
  {
    var n, k := |controls| - 1, IndexOf(controls, id);
    assert forall i :: 0 <= i < n ==> controls[..n][i] == controls[i];
    if k < n {
      assert controls[..n][k].id == id;
    }
  }

  /** Each id once, with its first entry, in the order of the entries. */
  lemma {:induction false} DistinctKeepsFirst(controls: seq<Control>)
    ensures var r := Distinct(controls);
      && (forall id :: Has(r, id) <==> Has(controls, id))
      && (forall k :: 0 <= k < |r| ==> IsFirst(controls, r[k]))
      && (forall j, k :: 0 <= j < k < |r| ==> IndexOf(controls, r[j].id) < IndexOf(controls, r[k].id))
    decreases |controls|
  {
    hide IndexOf;
    if controls != [] {
      var n := |controls| - 1;
      var known, last, r := Distinct(controls[..n]), controls[n], Distinct(controls);
      DistinctKeepsFirst(controls[..n]);
      if r != known {
        assert r[..|known|] == known && r[|known|] == last;
      }
      forall id ensures Has(r, id) <==> Has(controls, id) {
        IndexStays(controls, id);
        if r != known { IndexStays(r, id); }
        if id == last.id && r == known { HasKnown(known, id); }
      }
      forall k | 0 <= k < |known| ensures IsFirst(controls, known[k]) && IndexOf(controls, known[k].id) == IndexOf(controls[..n], known[k].id) < n {
        assert IsFirst(controls[..n], known[k]);
        IndexStays(controls, known[k].id);
      }
      if r != known {
        IndexStays(controls, last.id);
      }
    }
  }

  lemma HasKnown(known: seq<Control>, id: string)
    requires exists k :: 0 <= k < |known| && known[k].id == id
    ensures Has(known, id)
  {
  }

  /** What a control starts with when nothing is restored: off or 0, and the
      backlight bright. */
  lemma StartsOff(c: Control, saved: map<string, Value>)
    requires !c.restore || c.id !in saved || !(saved[c.id].On? <==> c.kind == Switch)
    ensures StartValue(c, saved) == if c.kind == Switch then On(false) else if c.hidden then Level(100) else Level(0)
  {
  }

  /** A saved value of the control's kind is restored, at most 100. */
  lemma StartsRestored(c: Control, saved: map<string, Value>)
    requires c.restore && c.id in saved && (saved[c.id].On? <==> c.kind == Switch)
    ensures StartValue(c, saved) == if saved[c.id].Level? && saved[c.id].level > 100 then Level(100) else saved[c.id]
  {
  }

  /** What was set is there again after a restart, boosted or not. */
  lemma {:induction false} SetSurvivesRestart(cfg: Config, h: Hub, id: string, value: Value, i: nat)
    requires Wired(cfg, h) && UniqueIds(cfg.controls) && KeptAside(cfg, h) && cfg.saving
    requires Set(cfg, h, id, value).1.Done? && Named(cfg, id, i) && cfg.controls[i].restore
    ensures StartStates(cfg.controls, Set(cfg, h, id, value).0.saved)[i].value == value
  {
    hide Set, Wired, KeptAside, UniqueIds;
    SetChangesOwn(cfg, h, id, value);
    assert IndexOf(cfg.controls, id) == i by { OneIndex(cfg, id, i); }
    StartsRestored(cfg.controls[i], Set(cfg, h, id, value).0.saved);
  }

  lemma OneIndex(cfg: Config, id: string, i: nat)
    requires UniqueIds(cfg.controls) && Named(cfg, id, i)
    ensures IndexOf(cfg.controls, id) == i
  {
  }

  /** The first control of a chip says whether a GPIO holds its reset. */
  lemma {:induction false} FirstSaysReset(controls: seq<Control>, key: ChipKey)
    ensures ResetOf(controls, key) <==> exists i :: 0 <= i < |controls| && IsFirstOf(controls, key, i) && controls[i].binding.hasReset
    decreases |controls|
  {
    if controls != [] && !(controls[0].binding.Mcp23017? && controls[0].binding.chip == key) {
      FirstSaysReset(controls[1..], key);
      forall i | 0 <= i < |controls[1..]| ensures IsFirstOf(controls[1..], key, i) <==> IsFirstOf(controls, key, i + 1) {
        FirstOfRest(controls, key, i);
      }
      if exists i :: 0 <= i < |controls[1..]| && IsFirstOf(controls[1..], key, i) && controls[1..][i].binding.hasReset {
        var i :| 0 <= i < |controls[1..]| && IsFirstOf(controls[1..], key, i) && controls[1..][i].binding.hasReset;
        assert IsFirstOf(controls, key, i + 1) && controls[i + 1].binding.hasReset;
      }
      if exists i :: 0 <= i < |controls| && IsFirstOf(controls, key, i) && controls[i].binding.hasReset {
        var i :| 0 <= i < |controls| && IsFirstOf(controls, key, i) && controls[i].binding.hasReset;
        assert IsFirstOf(controls[1..], key, i - 1) && controls[1..][i - 1].binding.hasReset;
      }
    } else if controls != [] {
      assert IsFirstOf(controls, key, 0);
    }
  }

  predicate IsOf(c: Control, key: ChipKey) { c.binding.Mcp23017? && c.binding.chip == key }

  ghost predicate IsFirstOf(controls: seq<Control>, key: ChipKey, i: nat)
    requires i < |controls|
  {
    IsOf(controls[i], key) && forall k :: 0 <= k < i ==> !IsOf(controls[k], key)
  }

  lemma FirstOfRest(controls: seq<Control>, key: ChipKey, i: nat)
    requires controls != [] && !IsOf(controls[0], key) && i < |controls[1..]|
    ensures IsFirstOf(controls[1..], key, i) <==> IsFirstOf(controls, key, i + 1)
  {
    if IsFirstOf(controls[1..], key, i) {
      forall k | 0 <= k < i + 1 ensures !IsOf(controls[k], key) {
        assert k > 0 ==> controls[1..][k - 1] == controls[k];
      }
    }
    if IsFirstOf(controls, key, i + 1) {
      forall k | 0 <= k < i ensures !IsOf(controls[1..][k], key) {
        assert controls[1..][k] == controls[k + 1];
      }
    }
  }

  // ----------------------------------------------------------- announcements

  /** What differs between two lists of states, up to `n`. */
  function ChangedAt(before: seq<ControlState>, after: seq<ControlState>, n: nat): set<nat>
    requires n <= |before| == |after|
  {
    set i: nat | i < n && before[i] != after[i]
  }

  lemma OneMoreChange(before: seq<ControlState>, after: seq<ControlState>, n: nat)
    requires 0 < n <= |before| == |after|
    ensures n - 1 !in ChangedAt(before, after, n - 1)
    ensures ChangedAt(before, after, n) == ChangedAt(before, after, n - 1) + if before[n - 1] != after[n - 1] then {n - 1} else {}
    ensures forall i :: i in ChangedAt(before, after, n) ==> i < n
  {
  }

  /** Announced is what changed, each once and nothing else. */
  lemma {:induction false} ChangesAreNews(before: seq<ControlState>, after: seq<ControlState>, n: nat)
    requires n <= |before| == |after|
    ensures var news := Changes(before, after, n);
      && |news| == |ChangedAt(before, after, n)|
      && (forall m :: m in news <==> exists i: nat :: i < n && before[i] != after[i] && after[i] == m)
    decreases n
  {
    if n > 0 {
      ChangesAreNews(before, after, n - 1);
      OneMoreChange(before, after, n);
      hide ChangedAt;
    }
  }

  /** A retry that changes no state announces nothing. */
  lemma {:induction false} QuietRetry(cfg: Config, h: Hub, order: seq<ChipKey>)
    requires Wired(cfg, h) && Retry(cfg, h, order).states == h.states
    ensures Retry(cfg, h, order).sent == h.sent
  {
    hide CheckAll, BringUpAll, BringUpPwm, Fitted;
    if !h.shuttingDown {
      NoChanges(h.states, |h.states|);
    }
  }

  lemma {:induction false} NoChanges(states: seq<ControlState>, n: nat)
    requires n <= |states|
    ensures Changes(states, states, n) == []
    decreases n
  {
    if n > 0 {
      NoChanges(states, n - 1);
    }
  }
}
