/** The overheat boost refines a plain map of own values: boosting changes
    what is shown and driven, never what a control goes back to. */
module ControlBoost {
  import opened ControlModel
  import opened ControlDevices
  import opened ControlRuns

  /** The value a control has of its own, shown or kept aside. */
  function Own(cfg: Config, h: Hub, i: nat): Value
    requires |h.states| == |cfg.controls| && i < |cfg.controls|
  {
    var c := cfg.controls[i];
    if h.boosting && c.boost && c.id in h.normal then h.normal[c.id] else h.states[i].value
  }

  function Owns(cfg: Config, h: Hub): (r: seq<Value>)
    requires |h.states| == |cfg.controls|
    ensures |r| == |cfg.controls|
  {
    seq(|cfg.controls|, i requires 0 <= i < |cfg.controls| => Own(cfg, h, i))
  }

  /** Own values are kept aside for the boosted controls, and only while
      boosting. */
  ghost predicate KeptAside(cfg: Config, h: Hub) {
    && (h.boosting ==> forall i :: 0 <= i < |cfg.controls| && cfg.controls[i].boost ==> cfg.controls[i].id in h.normal)
    && (!h.boosting ==> h.normal == map[])
    && (forall id :: id in h.normal ==> Boosts(cfg, id))
  }

  ghost predicate Boosts(cfg: Config, id: string) {
    exists i :: 0 <= i < |cfg.controls| && cfg.controls[i].boost && cfg.controls[i].id == id
  }

  /** Full: on, or level 100. */
  function Full(c: Control): Value { if c.kind == Switch then On(true) else Level(100) }

  /** While boosting, the boosted controls show full. */
  ghost predicate ShowsBoost(cfg: Config, h: Hub)
    requires |h.states| == |cfg.controls|
  {
    h.boosting ==> forall i :: 0 <= i < |cfg.controls| && cfg.controls[i].boost ==>
      h.states[i].value == Full(cfg.controls[i])
  }

  // ----------------------------------------------------------- one control

  /** One round of `set_overheated`, in values only: a control whose hardware
      does not answer keeps the value it shows. */
  lemma {:induction false} FollowValues(cfg: Config, h: Hub, k: nat, overheated: bool)
    requires Wired(cfg, h) && k < |cfg.controls|
    ensures var r := Follow(cfg, h, k, overheated); var c := cfg.controls[k];
      var shown := h.states[k].value;
      && r.boosting == h.boosting && r.saved == h.saved && r.shuttingDown == h.shuttingDown
      && h.world.calls.failed <= r.world.calls.failed
      && r.normal == (if !c.boost then h.normal else if overheated then h.normal[c.id := shown] else h.normal - {c.id})
      && (forall i :: 0 <= i < |h.states| && i != k ==> r.states[i].value == h.states[i].value)
      && r.states[k].value ==
           if !c.boost || r.world.calls.failed != h.world.calls.failed then shown
           else if overheated then Full(c)
           else if c.id in h.normal then h.normal[c.id] else shown
  {
    hide PutOnHardware, Fitted, Show;
    var c := cfg.controls[k];
    if c.boost {
      var h0, target := SetAside(cfg, h, k, overheated), Target(cfg, h, k, overheated);
      PutOnHardwareEffect(cfg, h0, k, target);
      ShowEffect(cfg, PutOnHardware(cfg, h0, k, target).0, k, target);
    }
  }

  lemma ShowEffect(cfg: Config, h: Hub, k: nat, value: Value)
    requires Wired(cfg, h) && k < |cfg.controls|
    ensures var r := Show(cfg, h, k, value);
      && r == h.(states := r.states, sent := r.sent) && |r.states| == |h.states| && r.states[k].value == value
      && forall i :: 0 <= i < |h.states| && i != k ==> r.states[i] == h.states[i]
  {
    hide Fitted;
  }

  // ------------------------------------------------------------ getting hot

  /** The boost from control `k` on, with the own values `own`. */
  lemma {:induction false} BoostFrom(cfg: Config, h: Hub, k: nat, own: seq<Value>)
    requires Wired(cfg, h) && UniqueIds(cfg.controls) && k <= |cfg.controls| == |own|
    requires forall i :: 0 <= i < k && cfg.controls[i].boost ==> cfg.controls[i].id in h.normal && h.normal[cfg.controls[i].id] == own[i]
    requires forall i :: 0 <= i < |own| && (k <= i || !cfg.controls[i].boost) ==> h.states[i].value == own[i]
    requires forall id :: id in h.normal ==> Boosts(cfg, id)
    ensures var r := FollowFrom(cfg, h, k, true);
      && r.boosting == h.boosting && r.saved == h.saved && h.world.calls.failed <= r.world.calls.failed
      && (forall i :: 0 <= i < |own| && cfg.controls[i].boost ==> cfg.controls[i].id in r.normal && r.normal[cfg.controls[i].id] == own[i])
      && (forall i :: 0 <= i < |own| && !cfg.controls[i].boost ==> r.states[i].value == own[i])
      && (forall id :: id in r.normal ==> Boosts(cfg, id))
      && (r.world.calls.failed == h.world.calls.failed ==>
            forall i :: 0 <= i < |own| && cfg.controls[i].boost ==>
              r.states[i].value == if i < k then h.states[i].value else Full(cfg.controls[i]))
    decreases |cfg.controls| - k
  {
    hide Follow, Fitted;
    if k < |cfg.controls| {
      var next := Follow(cfg, h, k, true);
      FollowValues(cfg, h, k, true);
      BoostFrom(cfg, next, k + 1, own);
    }
  }

  /** Getting hot never changes an own value, whatever fails; if nothing
      fails, the boosted controls show full. */
  lemma {:induction false} HotKeepsOwn(cfg: Config, h: Hub)
    requires Wired(cfg, h) && UniqueIds(cfg.controls) && KeptAside(cfg, h)
    ensures var r := SetOverheated(cfg, h, true);
      && KeptAside(cfg, r) && r.saved == h.saved
      && Owns(cfg, r) == Owns(cfg, h)
      && (ShowsBoost(cfg, h) && r.world.calls.failed == h.world.calls.failed ==> ShowsBoost(cfg, r))
  {
    hide FollowFrom, Fitted;
    if !h.shuttingDown && !h.boosting {
      BoostFrom(cfg, h.(boosting := true), 0, Owns(cfg, h));
    }
  }

  // ----------------------------------------------------------- cooling down

  /** The hub when `set_overheated(false)` comes to control `k`. */
  function CooledUpTo(cfg: Config, h: Hub, k: nat): (r: Hub)
    requires Wired(cfg, h) && k <= |cfg.controls|
    ensures Wired(cfg, r) && |r.states| == |cfg.controls| == |h.states|
  {
    if k == 0 then h.(boosting := false) else Follow(cfg, CooledUpTo(cfg, h, k - 1), k - 1, false)
  }

  /** The hardware of control `k` takes its own value back. */
  predicate TakesBack(cfg: Config, h: Hub, k: nat)
    requires Wired(cfg, h) && k < |cfg.controls|
  {
    CooledUpTo(cfg, h, k + 1).world.calls.failed == CooledUpTo(cfg, h, k).world.calls.failed
  }

  lemma {:induction false} CooledIsFollowed(cfg: Config, h: Hub, k: nat)
    requires Wired(cfg, h) && k <= |cfg.controls|
    ensures FollowFrom(cfg, CooledUpTo(cfg, h, k), k, false) == FollowFrom(cfg, h.(boosting := false), 0, false)
    decreases k
  {
    hide Follow, Wired;
    if k > 0 {
      CooledIsFollowed(cfg, h, k - 1);
    }
  }

  /** The boosted controls among the first `k`. */
  function BoostedIds(cfg: Config, k: nat): set<string>
    requires k <= |cfg.controls|
  {
    if k == 0 then {}
    else if cfg.controls[k - 1].boost then BoostedIds(cfg, k - 1) + {cfg.controls[k - 1].id}
    else BoostedIds(cfg, k - 1)
  }

  lemma {:induction false} BoostedIdsAre(cfg: Config, k: nat, id: string)
    requires k <= |cfg.controls|
    ensures id in BoostedIds(cfg, k) <==> exists i :: 0 <= i < k && cfg.controls[i].boost && cfg.controls[i].id == id
  {
    if k > 0 {
      BoostedIdsAre(cfg, k - 1, id);
    }
  }

  lemma {:induction false} NotBoostedBefore(cfg: Config, k: nat)
    requires k < |cfg.controls| && UniqueIds(cfg.controls)
    ensures cfg.controls[k].id !in BoostedIds(cfg, k)
  {
    BoostedIdsAre(cfg, k, cfg.controls[k].id);
  }

  lemma MinusTwice(m: map<string, Value>, ids: set<string>, id: string)
    ensures m - ids - {id} == m - (ids + {id})
  {
  }

  /** The `k`-th round, in values. */
  lemma {:induction false} CooledOnce(cfg: Config, h: Hub, k: nat)
    requires Wired(cfg, h) && 0 < k <= |cfg.controls|
    ensures var before := CooledUpTo(cfg, h, k - 1); var r := CooledUpTo(cfg, h, k); var c := cfg.controls[k - 1];
      var shown := before.states[k - 1].value;
      && r.boosting == before.boosting && r.saved == before.saved
      && before.world.calls.failed <= r.world.calls.failed
      && (TakesBack(cfg, h, k - 1) <==> r.world.calls.failed == before.world.calls.failed)
      && r.normal == (if c.boost then before.normal - {c.id} else before.normal)
      && (forall i :: 0 <= i < |cfg.controls| && i != k - 1 ==> r.states[i].value == before.states[i].value)
      && r.states[k - 1].value ==
           if c.boost && TakesBack(cfg, h, k - 1) && c.id in before.normal then before.normal[c.id] else shown
  {
    hide Follow;
    FollowValues(cfg, CooledUpTo(cfg, h, k - 1), k - 1, false);
  }

  lemma CooledNone(cfg: Config, h: Hub)
    requires Wired(cfg, h)
    ensures CooledUpTo(cfg, h, 0) == h.(boosting := false)
    ensures h.normal - BoostedIds(cfg, 0) == h.normal
  {
  }

  lemma BoostedOnce(cfg: Config, k: nat)
    requires 0 < k <= |cfg.controls|
    ensures BoostedIds(cfg, k) == BoostedIds(cfg, k - 1) + if cfg.controls[k - 1].boost then {cfg.controls[k - 1].id} else {}
  {
  }

  /** After the first `k` controls, what is kept aside: the others' values. */
  lemma {:induction false} CooledNormal(cfg: Config, h: Hub, k: nat)
    requires Wired(cfg, h) && k <= |cfg.controls|
    ensures var r := CooledUpTo(cfg, h, k);
      && !r.boosting && r.saved == h.saved && h.world.calls.failed <= r.world.calls.failed
      && r.normal == h.normal - BoostedIds(cfg, k)
    decreases k
  {
    hide *;
    if k > 0 {
      CooledNormal(cfg, h, k - 1);
      CooledOnce(cfg, h, k);
      BoostedOnce(cfg, k);
      MinusTwice(h.normal, BoostedIds(cfg, k - 1), cfg.controls[k - 1].id);
    } else {
      CooledNone(cfg, h);
    }
  }

  /** After the first `k` controls: one of them went back to its own value
      where its hardware answered; the others are as they were. */
  lemma {:induction false} CooledValue(cfg: Config, h: Hub, k: nat, i: nat)
    requires Wired(cfg, h) && UniqueIds(cfg.controls) && KeptAside(cfg, h) && h.boosting && k <= |cfg.controls| && i < |cfg.controls|
    ensures CooledUpTo(cfg, h, k).states[i].value == if i < k && TakesBack(cfg, h, i) then Own(cfg, h, i) else h.states[i].value
    decreases k
  {
    hide *;
    if k == 0 {
      CooledNone(cfg, h);
    } else {
      CooledValue(cfg, h, k - 1, i);
      CooledOnce(cfg, h, k);
      if i == k - 1 {
        CooledNormal(cfg, h, i);
        NotBoostedBefore(cfg, i);
        OwnOfBoosted(cfg, h, i);
      }
    }
  }

  lemma {:induction false} CooledValues(cfg: Config, h: Hub, k: nat)
    requires Wired(cfg, h) && UniqueIds(cfg.controls) && KeptAside(cfg, h) && h.boosting && k <= |cfg.controls|
    ensures forall i :: 0 <= i < |cfg.controls| ==>
      CooledUpTo(cfg, h, k).states[i].value == if i < k && TakesBack(cfg, h, i) then Own(cfg, h, i) else h.states[i].value
    ensures CooledUpTo(cfg, h, k).world.calls.failed == h.world.calls.failed ==> forall i :: 0 <= i < k ==> TakesBack(cfg, h, i)
  {
    assert |h.states| == |cfg.controls|;
    hide *;
    forall i | 0 <= i < |cfg.controls|
      ensures CooledUpTo(cfg, h, k).states[i].value == if i < k && TakesBack(cfg, h, i) then Own(cfg, h, i) else h.states[i].value
    {
      CooledValue(cfg, h, k, i);
    }
    CooledWithoutFailure(cfg, h, k);
  }

  lemma {:induction false} CooledWithoutFailure(cfg: Config, h: Hub, k: nat)
    requires Wired(cfg, h) && k <= |cfg.controls|
    ensures CooledUpTo(cfg, h, k).world.calls.failed == h.world.calls.failed ==> forall i :: 0 <= i < k ==> TakesBack(cfg, h, i)
    decreases k
  {
    hide *;
    if k > 0 {
      CooledWithoutFailure(cfg, h, k - 1);
      CooledNormal(cfg, h, k - 1);
      CooledOnce(cfg, h, k);
    }
  }

  lemma OwnOfBoosted(cfg: Config, h: Hub, k: nat)
    requires Wired(cfg, h) && KeptAside(cfg, h) && h.boosting && k < |cfg.controls|
    ensures cfg.controls[k].boost ==> cfg.controls[k].id in h.normal && Own(cfg, h, k) == h.normal[cfg.controls[k].id]
    ensures !cfg.controls[k].boost ==> Own(cfg, h, k) == h.states[k].value
  {
  }

  /** Cooling down keeps the own value of a control exactly when its hardware
      takes the value back or it was shown anyway; otherwise the value kept
      aside is gone and the control stays at what it showed. */
  lemma {:induction false} CoolDownKeepsOwnExactly(cfg: Config, h: Hub, i: nat)
    requires Wired(cfg, h) && UniqueIds(cfg.controls) && KeptAside(cfg, h)
    requires h.boosting && !h.shuttingDown && i < |cfg.controls|
    ensures var r := SetOverheated(cfg, h, false);
      Own(cfg, r, i) == Own(cfg, h, i) <==> TakesBack(cfg, h, i) || h.states[i].value == Own(cfg, h, i)
  {
    hide Follow, FollowFrom, Fitted, CooledUpTo, TakesBack;
    CooledIsFollowed(cfg, h, |cfg.controls|);
    CooledNormal(cfg, h, |cfg.controls|);
    CooledValues(cfg, h, |cfg.controls|);
    FollowFromNothing(cfg, CooledUpTo(cfg, h, |cfg.controls|));
  }

  /** A boosted switch on an expander that answers its first four calls. */
  function LosingConfig(key: ChipKey): Config {
    Config([Control("fan", Switch, false, Binding.Mcp23017(key, 0, false), false, true)], true, (n: nat) => n < 4)
  }

  function PoweredUp(key: ChipKey): World {
    World(map[key := Device(ALL_PINS, {}, false)], map[], Calls(0, 0))
  }

  /** The hub of that one switch with the chip answering. */
  predicate OneSwitch(h: Hub, key: ChipKey, on: bool, boosting: bool, calls: nat) {
    && h.states == [ControlState("fan", On(on), true)] && h.boosting == boosting && !h.shuttingDown
    && h.chips.Keys == {key} == h.world.devices.Keys && h.outputs == map[] && h.world.fans == map[]
    && h.chips[key] == Chip({0}, if on then {0} else {}, true, true, false, false)
    && !h.world.devices[key].inReset && h.world.calls == Calls(calls, 0)
  }

  lemma LosingStarts(key: ChipKey)
    ensures WorldFor(LosingConfig(key), PoweredUp(key))
    ensures OneSwitch(Start(LosingConfig(key), map[], PoweredUp(key), [key]), key, false, false, 3)
  {
    var cfg := LosingConfig(key);
    assert ChipKeys(cfg.controls) == {key} by { assert cfg.controls[0].binding.chip == key; }
    assert PwmKeys(cfg.controls) == {};
    var h := Assembled(cfg, map[], PoweredUp(key));
    assert PinsOf(cfg.controls, key) == {0} by { assert cfg.controls[0].binding.pin == 0; }
    assert PinsOn(cfg.controls, h.states, key) == {};
    var up := PutRig(h, key, BringUp(RigAt(h, key), cfg.answers));
    assert up.chips[key] == Chip({0}, {}, true, true, false, false) && up.world.calls == Calls(3, 0);
    assert BringUpAll(cfg, h, [key]) == BringUpAll(cfg, up, []) == up;
    assert BringUpPwm(cfg, up, 0) == BringUpPwm(cfg, up, 1) == up;
  }

  lemma {:induction false} SwitchesOn(h: Hub, key: ChipKey)
    requires Wired(LosingConfig(key), h) && OneSwitch(h, key, false, true, 3)
    ensures var put := PutOnHardware(LosingConfig(key), h, 0, On(true));
      put.1 && OneSwitch(Show(LosingConfig(key), put.0, 0, On(true)), key, true, true, 4)
  {
    var cfg := LosingConfig(key);
    assert SwitchPin(RigAt(h, key), cfg.answers, 0, On(true)).1;
  }

  lemma {:induction false} LosingGetsHot(h: Hub, key: ChipKey)
    requires Wired(LosingConfig(key), h) && OneSwitch(h, key, false, false, 3)
    ensures OneSwitch(SetOverheated(LosingConfig(key), h, true), key, true, true, 4)
  {
    hide PutOnHardware, Show, OneSwitch;
    var cfg := LosingConfig(key);
    var hot := h.(boosting := true);
    ShownOf(h, key, false, false, 3);
    AsideKeepsSwitch(hot, h, key);
    SwitchesOn(SetAside(cfg, hot, 0, true), key);
    assert FollowFrom(cfg, hot, 0, true) == FollowFrom(cfg, Follow(cfg, hot, 0, true), 1, true) == Follow(cfg, hot, 0, true);
  }

  lemma AsideKeepsSwitch(hot: Hub, h: Hub, key: ChipKey)
    requires OneSwitch(h, key, false, false, 3) && hot == h.(boosting := true)
    ensures OneSwitch(SetAside(LosingConfig(key), hot, 0, true), key, false, true, 3)
  {
  }

  /** The fifth call fails. */
  lemma {:induction false} LosesSwitch(h: Hub, key: ChipKey)
    requires Wired(LosingConfig(key), h) && OneSwitch(h, key, true, true, 4)
    ensures !TakesBack(LosingConfig(key), h, 0)
  {
    var cfg := LosingConfig(key);
    var cool := SetAside(cfg, h.(boosting := false), 0, false);
    var target := Target(cfg, h.(boosting := false), 0, false);
    CooledNone(cfg, h);
    assert !SwitchPin(RigAt(cool, key), cfg.answers, 0, target).1;
    hide SwitchPin, RefreshAndSend;
    PutOnHardwareEffect(cfg, cool, 0, target);
    assert CooledUpTo(cfg, h, 1) == PutOnHardware(cfg, cool, 0, target).0;
  }

  /** A run that loses an own value: the switch is off, the CPU gets hot and
      the fan goes on; then the chip stops answering. Cooling down leaves the
      fan on, and that it was off is forgotten. */
  lemma {:induction false} OwnValueLost(key: ChipKey)
    ensures WorldFor(LosingConfig(key), PoweredUp(key))
    ensures var cfg := LosingConfig(key);
      var h := Run(cfg, Start(cfg, map[], PoweredUp(key), [key]), [OverheatOp(true)]);
      Own(cfg, h, 0) == On(false) && Own(cfg, SetOverheated(cfg, h, false), 0) == On(true)
  {
    hide Start, SetOverheated, OneSwitch, TakesBack, KeptAside, ShowsBoost;
    var cfg := LosingConfig(key);
    LosingStarts(key);
    var cold := Start(cfg, map[], PoweredUp(key), [key]);
    StartKeepsNothingAside(cfg, map[], PoweredUp(key), [key]);
    LosingGetsHot(cold, key);
    HotKeepsOwn(cfg, cold);
    var h := SetOverheated(cfg, cold, true);
    assert Run(cfg, cold, []) == cold;
    assert Run(cfg, cold, [OverheatOp(true)]) == h by { assert [OverheatOp(true)][..0] == []; }
    ShownOf(cold, key, false, false, 3);
    ShownOf(h, key, true, true, 4);
    assert Owns(cfg, h)[0] == Owns(cfg, cold)[0];
    LosesSwitch(h, key);
    CoolDownKeepsOwnExactly(cfg, h, 0);
    CooledShows(cfg, h);
  }

  lemma ShownOf(h: Hub, key: ChipKey, on: bool, boosting: bool, calls: nat)
    requires OneSwitch(h, key, on, boosting, calls)
    ensures |h.states| == 1 && h.states[0].value == On(on) && h.boosting == boosting && !h.shuttingDown
  {
  }

  /** Once cool, the own value is the one shown; where the hardware failed,
      that is what was shown before. */
  lemma {:induction false} CooledShows(cfg: Config, h: Hub)
    requires Wired(cfg, h) && UniqueIds(cfg.controls) && KeptAside(cfg, h)
    requires h.boosting && !h.shuttingDown && |cfg.controls| == 1 && !TakesBack(cfg, h, 0)
    ensures Own(cfg, SetOverheated(cfg, h, false), 0) == h.states[0].value
  {
    hide Follow, FollowFrom, Fitted, CooledUpTo, TakesBack;
    CooledIsFollowed(cfg, h, 1);
    CooledNormal(cfg, h, 1);
    CooledValues(cfg, h, 1);
    FollowFromNothing(cfg, CooledUpTo(cfg, h, 1));
  }

  lemma {:induction false} FollowFromNothing(cfg: Config, h: Hub)
    requires Wired(cfg, h)
    ensures FollowFrom(cfg, h, |cfg.controls|, false) == h
  {
  }

  /** A cool-down without a failing call restores every own value. */
  lemma {:induction false} CoolDownRestores(cfg: Config, h: Hub)
    requires Wired(cfg, h) && UniqueIds(cfg.controls) && KeptAside(cfg, h)
    ensures var r := SetOverheated(cfg, h, false);
      && KeptAside(cfg, r) && r.saved == h.saved && (ShowsBoost(cfg, h) ==> ShowsBoost(cfg, r))
      && (r.world.calls.failed == h.world.calls.failed ==> Owns(cfg, r) == Owns(cfg, h))
  {
    hide Follow, FollowFrom, Fitted, CooledUpTo, TakesBack;
    if h.boosting && !h.shuttingDown {
      CooledIsFollowed(cfg, h, |cfg.controls|);
      CooledNormal(cfg, h, |cfg.controls|);
      CooledValues(cfg, h, |cfg.controls|);
      FollowFromNothing(cfg, CooledUpTo(cfg, h, |cfg.controls|));
      var r := SetOverheated(cfg, h, false);
      forall id ensures id !in r.normal {
        if id in h.normal {
          assert Boosts(cfg, id);
          BoostedIdsAre(cfg, |cfg.controls|, id);
        }
      }
    }
  }

  // -------------------------------------------------------------------- set

  lemma {:induction false} KeepForLaterChangesOwn(cfg: Config, h: Hub, i: nat, value: Value)
    requires Wired(cfg, h) && UniqueIds(cfg.controls) && KeptAside(cfg, h)
    requires i < |cfg.controls| && h.boosting && cfg.controls[i].boost
    ensures var r := KeepForLater(cfg, h, i, value);
      && KeptAside(cfg, r) && (ShowsBoost(cfg, h) ==> ShowsBoost(cfg, r))
      && Owns(cfg, r) == Owns(cfg, h)[i := value]
  {
    hide Fitted;
    assert Boosts(cfg, cfg.controls[i].id);
  }

  lemma {:induction false} WriteChangesOwn(cfg: Config, h: Hub, i: nat, value: Value)
    requires Wired(cfg, h) && UniqueIds(cfg.controls) && KeptAside(cfg, h)
    requires i < |cfg.controls| && !(h.boosting && cfg.controls[i].boost)
    ensures var put := PutOnHardware(cfg, h, i, value);
      var r := if put.1 then Record(cfg, put.0, i, value) else put.0;
      && KeptAside(cfg, r) && (ShowsBoost(cfg, h) ==> ShowsBoost(cfg, r))
      && Owns(cfg, r) == (if put.1 then Owns(cfg, h)[i := value] else Owns(cfg, h))
      && r.saved == (if put.1 && cfg.saving then h.saved[cfg.controls[i].id := value] else h.saved)
  {
    hide PutOnHardware, Fitted, Boosts, UniqueIds;
    PutOnHardwareEffect(cfg, h, i, value);
  }

  /** A set is done in full or not at all: the own value and the saved value
      change together, and only those of this control. */
  lemma {:induction false} SetChangesOwn(cfg: Config, h: Hub, id: string, value: Value)
    requires Wired(cfg, h) && UniqueIds(cfg.controls) && KeptAside(cfg, h)
    ensures var done := Set(cfg, h, id, value); var r := done.0;
      var i := IndexOf(cfg.controls, id);
      && KeptAside(cfg, r) && (ShowsBoost(cfg, h) ==> ShowsBoost(cfg, r))
      && (done.1.Done? ==> i < |cfg.controls| && Takes(cfg.controls[i], value))
      && Owns(cfg, r) == (if done.1.Done? then Owns(cfg, h)[i := value] else Owns(cfg, h))
      && r.saved == (if done.1.Done? && cfg.saving then h.saved[id := value] else h.saved)
  {
    hide PutOnHardware, Record, KeptAside, ShowsBoost, Owns, Wired, UniqueIds, IndexOf;
    var i := IndexOf(cfg.controls, id);
    if !h.shuttingDown && i < |cfg.controls| && Fits(cfg.controls[i].kind, value) {
      if h.boosting && cfg.controls[i].boost {
        KeepForLaterChangesOwn(cfg, h, i, value);
      } else {
        WriteChangesOwn(cfg, h, i, value);
      }
    }
  }

  // ------------------------------------------------------------------- runs

  /** The plain map: each control's own value, and what was set by id. */
  datatype Plain = Plain(own: seq<Value>, latest: map<string, Value>)

  /** Only a set that was done changes the plain map. */
  function PlainRun(cfg: Config, h: Hub, ops: seq<Op>): (p: Plain)
    requires Wired(cfg, h)
    ensures |p.own| == |cfg.controls|
  {
    if ops == [] then Plain(Owns(cfg, h), map[]) else
      var p := PlainRun(cfg, h, ops[..|ops| - 1]);
      var before := Run(cfg, h, ops[..|ops| - 1]);
      match ops[|ops| - 1]
      case SetOp(id, value) =>
        var i := IndexOf(cfg.controls, id);
        if i < |cfg.controls| && Set(cfg, before, id, value).1.Done? then Plain(p.own[i := value], p.latest[id := value]) else p
      case _ => p
  }

  /** No call fails while the controls cool down (`hot` false) or get hot. */
  predicate Answering(cfg: Config, h: Hub, ops: seq<Op>, hot: bool)
    requires Wired(cfg, h)
  {
    ops == [] ||
    (Answering(cfg, h, ops[..|ops| - 1], hot) &&
     var before := Run(cfg, h, ops[..|ops| - 1]);
     var op := ops[|ops| - 1];
     (op.OverheatOp? && op.overheated == hot ==> Step(cfg, before, op).world.calls.failed == before.world.calls.failed))
  }

  lemma {:induction false} StepKeepsValues(cfg: Config, h: Hub, op: Op)
    requires Wired(cfg, h) && (op.RetryOp? || op.ShutDownOp? || op.ForgetOp?)
    ensures var r := Step(cfg, h, op);
      && r.boosting == h.boosting && r.normal == h.normal && r.saved == h.saved
      && forall i :: 0 <= i < |h.states| ==> r.states[i].value == h.states[i].value
  {
    hide CheckAll, BringUpAll, BringUpPwm, HoldAll, StopOutputs;
  }

  lemma {:induction false} SameValuesSameOwns(cfg: Config, h: Hub, r: Hub)
    requires Wired(cfg, h) && Wired(cfg, r)
    requires r.boosting == h.boosting && r.normal == h.normal
    requires forall i :: 0 <= i < |h.states| ==> r.states[i].value == h.states[i].value
    ensures Owns(cfg, r) == Owns(cfg, h)
    ensures KeptAside(cfg, h) ==> KeptAside(cfg, r)
    ensures ShowsBoost(cfg, h) ==> ShowsBoost(cfg, r)
  {
    hide Boosts;
  }

  /** For every run in which the hardware answers while cooling down: each
      control's own value is the last one set, and the saved values are the
      ones loaded with everything set since laid over them. */
  lemma {:induction false} BoostRefinesPlainMap(cfg: Config, h: Hub, ops: seq<Op>)
    requires Wired(cfg, h) && UniqueIds(cfg.controls) && KeptAside(cfg, h)
    requires Answering(cfg, h, ops, false)
    ensures var r := Run(cfg, h, ops); var p := PlainRun(cfg, h, ops);
      && KeptAside(cfg, r)
      && Owns(cfg, r) == p.own
      && r.saved == (if cfg.saving then h.saved + p.latest else h.saved)
  {
    hide Set, SetOverheated, Retry, ShutDown, Forget, KeptAside, Owns, Wired, UniqueIds, IndexOf;
    if ops != [] {
      BoostRefinesPlainMap(cfg, h, ops[..|ops| - 1]);
      var before, op := Run(cfg, h, ops[..|ops| - 1]), ops[|ops| - 1];
      if op.SetOp? {
        SetChangesOwn(cfg, before, op.id, op.value);
      } else if op.OverheatOp? {
        HotKeepsOwn(cfg, before);
        CoolDownRestores(cfg, before);
      } else {
        StepKeepsValues(cfg, before, op);
        SameValuesSameOwns(cfg, before, Step(cfg, before, op));
      }
    }
  }

  /** Once a control was set, the saved value is its own value. */
  lemma {:induction false} LatestIsOwn(cfg: Config, h: Hub, ops: seq<Op>, i: nat)
    requires Wired(cfg, h) && UniqueIds(cfg.controls) && i < |cfg.controls|
    ensures var p := PlainRun(cfg, h, ops); var id := cfg.controls[i].id;
      if id in p.latest then p.own[i] == p.latest[id] else p.own[i] == Own(cfg, h, i)
  {
    hide Set, Step, Own, Wired;
    if ops != [] {
      LatestIsOwn(cfg, h, ops[..|ops| - 1], i);
      var op := ops[|ops| - 1];
      if op.SetOp? && IndexOf(cfg.controls, op.id) < |cfg.controls| && op.id == cfg.controls[i].id {
        assert IndexOf(cfg.controls, op.id) == i;
      }
    }
  }

  /** For every run in which the hardware answers while getting hot, the
      boosted controls show full exactly while boosting: then full, and
      otherwise, like all other controls always, their own value. */
  lemma {:induction false} BoostIsShown(cfg: Config, h: Hub, ops: seq<Op>)
    requires Wired(cfg, h) && UniqueIds(cfg.controls) && KeptAside(cfg, h) && ShowsBoost(cfg, h)
    requires Answering(cfg, h, ops, true)
    ensures var r := Run(cfg, h, ops);
      && KeptAside(cfg, r)
      && forall i :: 0 <= i < |cfg.controls| ==>
           r.states[i].value == if r.boosting && cfg.controls[i].boost then Full(cfg.controls[i]) else Own(cfg, r, i)
  {
    hide Step, KeptAside, Wired, UniqueIds;
    BoostIsKept(cfg, h, ops);
  }

  lemma {:induction false} BoostIsKept(cfg: Config, h: Hub, ops: seq<Op>)
    requires Wired(cfg, h) && UniqueIds(cfg.controls) && KeptAside(cfg, h) && ShowsBoost(cfg, h)
    requires Answering(cfg, h, ops, true)
    ensures KeptAside(cfg, Run(cfg, h, ops)) && ShowsBoost(cfg, Run(cfg, h, ops))
  {
    hide Set, SetOverheated, Retry, ShutDown, Forget, KeptAside, ShowsBoost, Owns, Wired, UniqueIds;
    if ops != [] {
      BoostIsKept(cfg, h, ops[..|ops| - 1]);
      var before, op := Run(cfg, h, ops[..|ops| - 1]), ops[|ops| - 1];
      if op.SetOp? {
        SetChangesOwn(cfg, before, op.id, op.value);
      } else if op.OverheatOp? {
        HotKeepsOwn(cfg, before);
        CoolDownRestores(cfg, before);
      } else {
        StepKeepsValues(cfg, before, op);
        SameValuesSameOwns(cfg, before, Step(cfg, before, op));
      }
    }
  }

  /** A hub starts with nothing kept aside. */
  lemma {:induction false} StartKeepsNothingAside(cfg: Config, saved: map<string, Value>, world: World, order: seq<ChipKey>)
    requires WorldFor(cfg, world)
    ensures var h := Start(cfg, saved, world, order);
      KeptAside(cfg, h) && ShowsBoost(cfg, h) && h.saved == saved
  {
    hide BringUpAll, BringUpPwm, PinsOn, PinsOf, StartStates;
  }
}
