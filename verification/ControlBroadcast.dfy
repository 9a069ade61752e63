/** A client that reads the states once and then applies every announced
    change always knows exactly the hub's states. */
module ControlBroadcast {
  import opened ControlModel
  import opened ControlDevices
  import opened ControlRuns

  /** A client puts an announced state in place of the one with its id. */
  function Replace(view: seq<ControlState>, c: ControlState): (r: seq<ControlState>)
    ensures |r| == |view|
  {
    seq(|view|, i requires 0 <= i < |view| => if view[i].id == c.id then c else view[i])
  }

  function Fold(view: seq<ControlState>, changes: seq<ControlState>): (r: seq<ControlState>)
    ensures |r| == |view|
    decreases |changes|
  {
    if changes == [] then view else Fold(Replace(view, changes[0]), changes[1..])
  }

  /** Everything sent from `h` to `r` takes the states of `h` to those of `r`. */
  ghost predicate Told(h: Hub, r: Hub) {
    && |h.sent| <= |r.sent| && r.sent[..|h.sent|] == h.sent
    && Fold(h.states, r.sent[|h.sent|..]) == r.states
  }

  lemma {:induction false} FoldConcat(view: seq<ControlState>, a: seq<ControlState>, b: seq<ControlState>)
    ensures Fold(view, a + b) == Fold(Fold(view, a), b)
    decreases |a|
  {
    if a == [] {
      assert a + b == b;
    } else {
      assert (a + b)[1..] == a[1..] + b;
      FoldConcat(Replace(view, a[0]), a[1..], b);
    }
  }

  lemma {:induction false} ToldTransitive(h: Hub, m: Hub, r: Hub)
    requires Told(h, m) && Told(m, r)
    ensures Told(h, r)
  {
    var first, second := m.sent[|h.sent|..], r.sent[|m.sent|..];
    assert r.sent[|h.sent|..] == first + second by {
      assert r.sent == m.sent + second;
    }
    assert r.sent[..|h.sent|] == h.sent by {
      assert r.sent[..|h.sent|] == r.sent[..|m.sent|][..|h.sent|];
    }
    FoldConcat(h.states, first, second);
  }

  lemma {:induction false} ToldNothing(h: Hub, r: Hub)
    requires r.states == h.states && r.sent == h.sent
    ensures Told(h, r)
  {
  }

  /** Messages that all speak the truth about `target`, one at least for each
      entry that differs, turn `view` into `target`. */
  lemma {:induction false} FoldReaches(view: seq<ControlState>, changes: seq<ControlState>, target: seq<ControlState>)
    requires |view| == |target|
    requires forall i :: 0 <= i < |view| ==> view[i].id == target[i].id
    requires forall i, k :: 0 <= i < |target| && 0 <= k < |changes| && changes[k].id == target[i].id ==> changes[k] == target[i]
    requires forall i :: 0 <= i < |target| && view[i] != target[i] ==> exists k :: 0 <= k < |changes| && changes[k] == target[i]
    ensures Fold(view, changes) == target
    decreases |changes|
  {
    if changes == [] {
      assert view == target;
    } else {
      var next := Replace(view, changes[0]);
      forall i | 0 <= i < |target| && next[i] != target[i]
        ensures exists k :: 0 <= k < |changes[1..]| && changes[1..][k] == target[i]
      {
        assert view[i] != target[i];
        var k :| 0 <= k < |changes| && changes[k] == target[i];
        assert k != 0;
        assert changes[1..][k - 1] == target[i];
      }
      FoldReaches(next, changes[1..], target);
    }
  }

  // -------------------------------------------------- what a refresh announces

  lemma {:induction false} ChangesAt(before: seq<ControlState>, after: seq<ControlState>, n: nat, k: nat)
    requires n <= |before| == |after| && k < |Changes(before, after, n)|
    ensures exists i :: 0 <= i < n && before[i] != after[i] && Changes(before, after, n)[k] == after[i]
    decreases n
  {
    if k < |Changes(before, after, n - 1)| {
      ChangesAt(before, after, n - 1, k);
    }
  }

  lemma {:induction false} ChangesCover(before: seq<ControlState>, after: seq<ControlState>, n: nat, i: nat)
    requires i < n <= |before| == |after| && before[i] != after[i]
    ensures after[i] in Changes(before, after, n)
    decreases n
  {
    if i < n - 1 {
      ChangesCover(before, after, n - 1, i);
    }
  }

  lemma {:induction false} OthersAre(changes: seq<ControlState>, id: string, c: ControlState)
    ensures c in Others(changes, id) <==> c in changes && c.id != id
  {
    if changes != [] {
      OthersAre(changes[1..], id, c);
    }
  }

  /** The changes a refresh computes are true of `after`, and complete. */
  lemma {:induction false} ChangesTrue(cfg: Config, before: seq<ControlState>, after: seq<ControlState>, c: ControlState, i: nat)
    requires UniqueIds(cfg.controls) && |before| == |after| == |cfg.controls| && i < |after|
    requires forall j :: 0 <= j < |after| ==> after[j].id == cfg.controls[j].id
    requires c in Changes(before, after, |after|) && c.id == after[i].id
    ensures c == after[i]
  {
    var k :| 0 <= k < |Changes(before, after, |after|)| && Changes(before, after, |after|)[k] == c;
    ChangesAt(before, after, |after|, k);
  }

  lemma {:induction false} RefreshTells(cfg: Config, h: Hub)
    requires Wired(cfg, h) && UniqueIds(cfg.controls)
    ensures Told(h, RefreshAndSend(cfg, h, true, ""))
  {
    hide Changes, UniqueIds, Reachable;
    var after := Refreshed(cfg, h);
    var changes := Changes(h.states, after, |after|);
    forall i, k | 0 <= i < |after| && 0 <= k < |changes| && changes[k].id == after[i].id
      ensures changes[k] == after[i]
    {
      ChangesTrue(cfg, h.states, after, changes[k], i);
    }
    forall i | 0 <= i < |after| && h.states[i] != after[i]
      ensures exists k :: 0 <= k < |changes| && changes[k] == after[i]
    {
      ChangesCover(h.states, after, |after|, i);
    }
    FoldReaches(h.states, changes, after);
    assert (h.sent + changes)[|h.sent|..] == changes;
  }

  /** A refresh that leaves out one control, followed by that control's own
      message, tells everything too. */
  lemma {:induction false} RefreshAndReportTells(cfg: Config, h: Hub, index: nat, value: Value, r: Hub)
    requires Wired(cfg, h) && UniqueIds(cfg.controls) && index < |cfg.controls|
    requires var mid := RefreshAndSend(cfg, h, false, cfg.controls[index].id);
             var state := mid.states[index].(value := value);
             r.states == mid.states[index := state] && r.sent == mid.sent + [state]
    ensures Told(h, r)
  {
    hide Changes, Others, UniqueIds, Reachable;
    var id := cfg.controls[index].id;
    var after := Refreshed(cfg, h);
    var all := Changes(h.states, after, |after|);
    var others := Others(all, id);
    var state := r.states[index];
    var changes := others + [state];
    forall i, k | 0 <= i < |after| && 0 <= k < |changes| && changes[k].id == r.states[i].id
      ensures changes[k] == r.states[i]
    {
      if k < |others| {
        OthersAre(all, id, changes[k]);
        ChangesTrue(cfg, h.states, after, changes[k], i);
      } else {
        SameIdSameIndex(cfg, i, index);
      }
    }
    forall i | 0 <= i < |after| && h.states[i] != r.states[i]
      ensures exists k :: 0 <= k < |changes| && changes[k] == r.states[i]
    {
      if i == index {
        assert changes[|others|] == r.states[i];
      } else {
        ChangesCover(h.states, after, |after|, i);
        OthersAre(all, id, after[i]);
        assert after[i].id != id by {
          if after[i].id == id { SameIdSameIndex(cfg, i, index); }
        }
        var k :| 0 <= k < |others| && others[k] == after[i];
        assert changes[k] == r.states[i];
      }
    }
    FoldReaches(h.states, changes, r.states);
    assert r.sent[|h.sent|..] == changes;
    assert r.sent[..|h.sent|] == h.sent;
  }

  lemma SameIdSameIndex(cfg: Config, i: nat, j: nat)
    requires UniqueIds(cfg.controls) && i < |cfg.controls| && j < |cfg.controls|
    requires cfg.controls[i].id == cfg.controls[j].id
    ensures i == j
  {
  }

  lemma {:induction false} SameIndexReports(cfg: Config, h: Hub, index: nat, value: Value, r: Hub)
    requires Wired(cfg, h) && UniqueIds(cfg.controls) && index < |cfg.controls|
    requires var state := h.states[index].(value := value);
             r.states == h.states[index := state] && r.sent == h.sent + [state]
    ensures Told(h, r)
  {
    hide UniqueIds;
    var state := h.states[index].(value := value);
    assert r.sent[|h.sent|..] == [state];
    forall i | 0 <= i < |h.states| && state.id == r.states[i].id ensures state == r.states[i] {
      SameIdSameIndex(cfg, i, index);
    }
    assert [state][0] == r.states[index];
    FoldReaches(h.states, [state], r.states);
  }

  // --------------------------------------------------------------- operations

  /** A write tells everything: on failure by itself, on success together with
      the new state of its own control. */
  lemma {:induction false} WriteTells(cfg: Config, h: Hub, index: nat, value: Value, r: Hub)
    requires Wired(cfg, h) && UniqueIds(cfg.controls) && index < |cfg.controls|
    requires var put := PutOnHardware(cfg, h, index, value);
             if put.1 then
               var state := put.0.states[index].(value := value);
               r.states == put.0.states[index := state] && r.sent == put.0.sent + [state]
             else r.states == put.0.states && r.sent == put.0.sent
    ensures Told(h, r)
  {
    hide Touch, RefreshAndSend, Told, UniqueIds, Wired;
    var id := cfg.controls[index].id;
    if cfg.controls[index].binding.Demo? {
      SameIndexReports(cfg, h, index, value, r);
    } else {
      var touched := Touch(cfg, h, index, value);
      if touched.1 {
        RefreshAndReportTells(cfg, touched.0, index, value, r);
      } else {
        RefreshIgnoresExcept(cfg, touched.0, id);
        RefreshTells(cfg, touched.0);
        ToldOf(touched.0, RefreshAndSend(cfg, touched.0, true, ""), touched.0, r);
      }
      ToldOf(touched.0, r, h, r);
    }
  }

  lemma RefreshIgnoresExcept(cfg: Config, h: Hub, except: string)
    requires Wired(cfg, h)
    ensures RefreshAndSend(cfg, h, true, except) == RefreshAndSend(cfg, h, true, "")
  {
  }

  lemma {:induction false} ToldOf(g: Hub, s: Hub, h: Hub, r: Hub)
    requires g.states == h.states && g.sent == h.sent && s.states == r.states && s.sent == r.sent
    requires Told(g, s)
    ensures Told(h, r)
  {
  }

  lemma {:induction false} SetTells(cfg: Config, h: Hub, id: string, value: Value)
    requires Sound(cfg, h) && UniqueIds(cfg.controls)
    ensures Told(h, Set(cfg, h, id, value).0)
  {
    hide PutOnHardware, Sound, IndexOf, UniqueIds, Told;
    SoundIsWired(cfg, h);
    var r := Set(cfg, h, id, value).0;
    var index := IndexOf(cfg.controls, id);
    if h.shuttingDown || index == |cfg.controls| || !Fits(cfg.controls[index].kind, value) {
      ToldNothing(h, r);
    } else if h.boosting && cfg.controls[index].boost {
      SameIndexReports(cfg, h, index, h.states[index].value, r);
    } else {
      WrittenState(cfg, h, id, value);
      WriteTells(cfg, h, index, value, r);
    }
  }

  /** The state that a successful write announces is the one now held. */
  lemma {:induction false} WrittenState(cfg: Config, h: Hub, id: string, value: Value)
    requires Sound(cfg, h) && IndexOf(cfg.controls, id) < |cfg.controls|
    ensures var index := IndexOf(cfg.controls, id);
      var put := PutOnHardware(cfg, h, index, value);
      && |put.0.states| == |cfg.controls|
      && (put.1 ==> put.0.states[index].(value := value) == ControlState(id, value, true))
  {
    hide PutOnHardware, Sound, IndexOf;
    var index := IndexOf(cfg.controls, id);
    SoundIsWired(cfg, h);
    PutOnHardwareEffect(cfg, h, index, value);
    PutOnHardwareReaches(cfg, h, index, value);
    PutOnHardwareAvailability(cfg, h, index, value);
  }

  lemma {:induction false} FollowTells(cfg: Config, h: Hub, index: nat, overheated: bool)
    requires Wired(cfg, h) && UniqueIds(cfg.controls) && index < |cfg.controls|
    ensures Told(h, Follow(cfg, h, index, overheated))
  {
    hide PutOnHardware, UniqueIds, Told;
    var r := Follow(cfg, h, index, overheated);
    var control := cfg.controls[index];
    if control.boost {
      var h0 := SetAside(cfg, h, index, overheated);
      WriteTells(cfg, h0, index, Target(cfg, h, index, overheated), r);
      ToldOf(h0, r, h, r);
    } else {
      ToldNothing(h, r);
    }
  }

  lemma {:induction false} FollowFromTells(cfg: Config, h: Hub, index: nat, overheated: bool)
    requires Wired(cfg, h) && UniqueIds(cfg.controls) && index <= |cfg.controls|
    ensures Told(h, FollowFrom(cfg, h, index, overheated))
    decreases |cfg.controls| - index
  {
    hide Follow, UniqueIds, Told, Wired;
    if index == |cfg.controls| {
      ToldNothing(h, h);
    } else {
      var next := Follow(cfg, h, index, overheated);
      FollowTells(cfg, h, index, overheated);
      FollowFromTells(cfg, next, index + 1, overheated);
      ToldTransitive(h, next, FollowFrom(cfg, h, index, overheated));
    }
  }

  lemma {:induction false} StepTells(cfg: Config, h: Hub, op: Op)
    requires Sound(cfg, h) && UniqueIds(cfg.controls)
    ensures Told(h, Step(cfg, h, op))
  {
    hide Set, FollowFrom, CheckAll, BringUpAll, BringUpPwm, RefreshAndSend, HoldAll, StopOutputs, Sound, UniqueIds, Told;
    SoundIsWired(cfg, h);
    var r := Step(cfg, h, op);
    match op
    case SetOp(id, value) =>
      SetTells(cfg, h, id, value);
    case OverheatOp(overheated) =>
      var h0 := h.(boosting := overheated);
      FollowFromTells(cfg, h0, 0, overheated);
      ToldOf(h0, FollowFrom(cfg, h0, 0, overheated), h, FollowFrom(cfg, h0, 0, overheated));
      ToldNothing(h, h);
    case RetryOp(order) =>
      var driven := BringUpPwm(cfg, BringUpAll(cfg, CheckAll(cfg, h, order), order), 0);
      RefreshTells(cfg, driven);
      ToldOf(driven, RefreshAndSend(cfg, driven, true, ""), h, RefreshAndSend(cfg, driven, true, ""));
      ToldNothing(h, h);
    case ShutDownOp(order) =>
      ToldNothing(h, r);
    case ForgetOp(key) =>
      ToldNothing(h, r);
  }

  /** For every run, from any moment a client subscribed. */
  lemma {:induction false} SubscriberSeesStates(cfg: Config, h: Hub, ops: seq<Op>)
    requires Sound(cfg, h) && UniqueIds(cfg.controls)
    ensures Told(h, Run(cfg, h, ops))
  {
    hide Step, Sound, UniqueIds, Told;
    SoundIsWired(cfg, h);
    if ops == [] {
      ToldNothing(h, h);
    } else {
      var before := Run(cfg, h, ops[..|ops| - 1]);
      SubscriberSeesStates(cfg, h, ops[..|ops| - 1]);
      RunKeepsSound(cfg, h, ops[..|ops| - 1]);
      StepTells(cfg, before, ops[|ops| - 1]);
      ToldTransitive(h, before, Run(cfg, h, ops));
    }
  }
}
