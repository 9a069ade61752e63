/** What holds of every mixer: rendering frame by frame changes nothing, fades
    are linear and stay in bounds, muted rings are left alone. */
module MixerProofs {
  import opened Wrappers
  import opened MixerModel

  // ------------------------------------------------- bulk and frame by frame

  lemma EndedIsSilent(slot: Option<Source>, withRear: bool)
    requires Ended(slot)
    ensures Sound(slot, withRear) == SILENCE == Sound(None, withRear)
  {
  }

  lemma {:induction false} CleanedSumsAlike(slots: Slots, withRear: bool)
    ensures Sum(Cleaned(slots), withRear) == Sum(slots, withRear)
    decreases |slots|
  {
    hide Sound, Ended, Plus;
    if slots != [] {
      var n := |slots| - 1;
      CleanedSumsAlike(slots[..n], withRear);
      assert Cleaned(slots)[..n] == Cleaned(slots[..n]);
      if Ended(slots[n]) { EndedIsSilent(slots[n], withRear); }
    }
  }

  /** An ended source left in its slot plays nothing and stays ended. */
  lemma CleanedPlaysAlike(slots: Slots, withRear: bool)
    ensures Mixed(Cleaned(slots), withRear) == Mixed(slots, withRear)
    ensures Cleaned(AfterFrame(Cleaned(slots), withRear)) == Cleaned(AfterFrame(slots, withRear))
  {
    CleanedSumsAlike(slots, withRear);
  }

  lemma {:induction false} CleanedRendersAlike(slots: Slots, n: nat, withRear: bool)
    ensures Frames(Cleaned(slots), n, withRear) == Frames(slots, n, withRear)
    ensures Cleaned(AfterFrames(Cleaned(slots), n, withRear)) == Cleaned(AfterFrames(slots, n, withRear))
    decreases n
  {
    if n == 0 {
      assert Cleaned(Cleaned(slots)) == Cleaned(slots);
    } else {
      CleanedPlaysAlike(slots, withRear);
      var each, bulk := AfterFrame(Cleaned(slots), withRear), AfterFrame(slots, withRear);
      CleanedRendersAlike(each, n - 1, withRear);
      CleanedRendersAlike(bulk, n - 1, withRear);
    }
  }

  ghost predicate NoneEnded(slots: Slots) {
    forall i :: 0 <= i < |slots| ==> !Ended(slots[i])
  }

  /** Rendering frame by frame gives the samples and the mixer of one bulk
      render, whatever ends, fades or is muted in between. */
  lemma {:induction false} FrameByFrameIsBulk(m: Mixer, n: nat, withRear: bool)
    requires NoneEnded(m.slots)
    ensures RenderEach(m, n, withRear) == Render(m, n, withRear)
    decreases n
  {
    if n == 0 {
      assert Cleaned(m.slots) == m.slots;
    } else {
      var first := Render(m, 1, withRear);
      var next := AfterFrame(m.slots, withRear);
      assert AfterFrames(m.slots, 1, withRear) == next;
      assert first.1 == m.(slots := Cleaned(next));
      FrameByFrameIsBulk(first.1, n - 1, withRear);
      CleanedRendersAlike(next, n - 1, withRear);
      assert Frames(next, 0, withRear) == [];
      assert first.0 == [Mixed(m.slots, withRear)];
      assert Frames(m.slots, n, withRear) == first.0 + Frames(next, n - 1, withRear);
    }
  }

  // --------------------------------------------------------------- the output

  function LaidAll(frames: seq<Frame>, channels: nat, rearLevel: real): seq<real> {
    if frames == [] then [] else Laid(frames[0], channels, rearLevel, channels) + LaidAll(frames[1..], channels, rearLevel)
  }

  /** An output of whole frames carries one bulk render. */
  lemma {:induction false} FillIsOneRender(m: Mixer, n: nat, channels: nat, rearLevel: real)
    requires channels > 0 && NoneEnded(m.slots)
    ensures var whole := Render(m, n, channels >= SURROUND_CHANNELS);
      Fill(m, n * channels, channels, rearLevel) == (LaidAll(whole.0, channels, rearLevel), whole.1)
    decreases n
  {
    FrameByFrameIsBulk(m, n, channels >= SURROUND_CHANNELS);
    FillIsEach(m, n, channels, rearLevel);
  }

  lemma {:induction false} FillIsEach(m: Mixer, n: nat, channels: nat, rearLevel: real)
    requires channels > 0
    ensures var each := RenderEach(m, n, channels >= SURROUND_CHANNELS);
      Fill(m, n * channels, channels, rearLevel) == (LaidAll(each.0, channels, rearLevel), each.1)
    decreases n
  {
    hide Render, Laid;
    if n > 0 {
      var withRear := channels >= SURROUND_CHANNELS;
      var first := Render(m, 1, withRear);
      assert n * channels == (n - 1) * channels + channels;
      FillIsEach(first.1, n - 1, channels, rearLevel);
      var rest := RenderEach(first.1, n - 1, withRear);
      assert (first.0 + rest.0)[0] == first.0[0] && (first.0 + rest.0)[1..] == rest.0;
    }
  }

  // -------------------------------------------------------------------- fades

  /** The fade is on its way: `remaining` more steps lead to the target. */
  ghost predicate OnTheWay(gain: real, target: real, step: real, remaining: nat, fadeFrames: nat)
    requires fadeFrames > 0
  {
    && 0.0 <= gain <= 1.0 && 0.0 <= target <= 1.0
    && remaining <= fadeFrames
    && gain + remaining as real * step == target
    && -1.0 <= step * fadeFrames as real <= 1.0
  }

  ghost predicate Fading(l: Levels, fadeFrames: nat)
    requires fadeFrames > 0
  {
    && OnTheWay(l.gain, l.target, l.step, l.remaining, fadeFrames)
    && OnTheWay(l.rear, l.rearTarget, l.rearStep, l.remaining, fadeFrames)
  }

  lemma StepKeepsWay(gain: real, target: real, step: real, remaining: nat, fadeFrames: nat)
    requires fadeFrames > 0 && remaining > 0 && OnTheWay(gain, target, step, remaining, fadeFrames)
    ensures OnTheWay(gain + step, target, step, remaining - 1, fadeFrames)
    ensures remaining == 1 ==> gain + step == target
    ensures -1.0 <= step * fadeFrames as real <= 1.0
  {
    var left := (remaining - 1) as real;
    assert remaining as real * step == left * step + step;
    if step >= 0.0 {
      assert left * step >= 0.0;
    } else {
      assert left * step <= 0.0;
    }
  }

  lemma NewWay(gain: real, target: real, fadeFrames: nat)
    requires fadeFrames > 0 && 0.0 <= gain <= 1.0 && 0.0 <= target <= 1.0
    ensures OnTheWay(gain, target, (target - gain) / fadeFrames as real, fadeFrames, fadeFrames)
  {
    assert fadeFrames as real * ((target - gain) / fadeFrames as real) == target - gain;
  }

  /** Each frame keeps the fade on its way and moves neither gain by more than
      one step of `1 / fadeFrames`, retargeted or not. */
  lemma AdvanceKeepsFading(l: Levels, fadeFrames: nat)
    requires fadeFrames > 0 && Fading(l, fadeFrames)
    ensures Fading(Advance(l), fadeFrames)
    ensures -1.0 <= (Advance(l).gain - l.gain) * fadeFrames as real <= 1.0
    ensures -1.0 <= (Advance(l).rear - l.rear) * fadeFrames as real <= 1.0
  {
    hide OnTheWay;
    if l.remaining > 0 {
      StepKeepsWay(l.gain, l.target, l.step, l.remaining, fadeFrames);
      StepKeepsWay(l.rear, l.rearTarget, l.rearStep, l.remaining, fadeFrames);
      assert Advance(l).gain - l.gain == l.step && Advance(l).rear - l.rear == l.rearStep;
    }
  }

  lemma RetargetStartsFading(l: Levels, front: real, rear: real, fadeFrames: nat)
    requires fadeFrames > 0 && Fading(l, fadeFrames) && 0.0 <= front <= 1.0 && 0.0 <= rear <= 1.0
    ensures Fading(Retarget(l, front, rear, fadeFrames), fadeFrames)
    ensures var r := Retarget(l, front, rear, fadeFrames);
      r.gain == l.gain && r.rear == l.rear && r.target == front && r.rearTarget == rear && r.remaining == fadeFrames
  {
    NewWay(l.gain, front, fadeFrames);
    NewWay(l.rear, rear, fadeFrames);
  }

  function AdvanceTimes(l: Levels, n: nat): Levels {
    if n == 0 then l else Advance(AdvanceTimes(l, n - 1))
  }

  /** A fade is a straight line to its targets, reached with its last frame
      and kept from then on. */
  lemma {:induction false} FadeIsStraight(l: Levels, n: nat, fadeFrames: nat)
    requires fadeFrames > 0 && Fading(l, fadeFrames)
    ensures var after := AdvanceTimes(l, n);
      && Fading(after, fadeFrames)
      && after.target == l.target && after.rearTarget == l.rearTarget
      && after.step == l.step && after.rearStep == l.rearStep
      && after.remaining == (if n < l.remaining then l.remaining - n else 0)
      && (n <= l.remaining ==> after.gain == l.gain + n as real * l.step && after.rear == l.rear + n as real * l.rearStep)
      && (n >= l.remaining ==> after.gain == l.target && after.rear == l.rearTarget)
    decreases n
  {
    hide OnTheWay;
    if n > 0 {
      FadeIsStraight(l, n - 1, fadeFrames);
      AdvanceKeepsFading(AdvanceTimes(l, n - 1), fadeFrames);
    }
    var after := AdvanceTimes(l, n);
    FarAlong(l.gain, after.gain, l.target, l.step, l.remaining, after.remaining, fadeFrames);
    FarAlong(l.rear, after.rear, l.rearTarget, l.rearStep, l.remaining, after.remaining, fadeFrames);
  }

  /** Two points of the same fade. */
  lemma FarAlong(from: real, to: real, target: real, step: real, before: nat, after: nat, fadeFrames: nat)
    requires fadeFrames > 0 && after <= before
    requires OnTheWay(from, target, step, before, fadeFrames) && OnTheWay(to, target, step, after, fadeFrames)
    ensures to == from + (before - after) as real * step
    ensures after == 0 ==> to == target
  {
    assert before as real * step == (before - after) as real * step + after as real * step;
  }

  // -------------------------------------------------------------------- pauses

  /** At rest, and silent on every speaker there is. */
  predicate IsMuted(l: Levels, withRear: bool) {
    l.remaining == 0 && l.gain == 0.0 && (withRear ==> l.rear == 0.0)
  }

  /** A source at rest with both gains zero is not pulled and not heard, for
      as long as nothing retargets it: a paused ring stays as it is. */
  lemma {:induction false} MutedKeepsItsSamples(slots: Slots, i: nat, n: nat, withRear: bool)
    requires i < |slots| && slots[i].Some? && IsMuted(slots[i].value.levels, withRear)
    ensures |AfterFrames(slots, n, withRear)| == |slots| && AfterFrames(slots, n, withRear)[i] == slots[i]
    ensures Sound(slots[i], withRear) == SILENCE
    decreases n
  {
    if n > 0 {
      MutedKeepsItsSamples(AfterFrame(slots, withRear), i, n - 1, withRear);
    }
  }

  // -------------------------------------------------------------------- slots

  /** A source is refused exactly for a gain outside [0, 1], or else when no
      slot is free; it goes into the first free one and nowhere else. */
  lemma AddTakesFirstFree(m: Mixer, feed: Feed, gain: real)
    ensures var added := AddFeed(m, feed, gain);
      && (added.1 == Err(BadGain) <==> gain < 0.0 || gain > 1.0)
      && (added.1 == Err(LimitReached) <==> 0.0 <= gain <= 1.0 && forall i :: 0 <= i < |m.slots| ==> m.slots[i].Some?)
      && (added.1.Err? ==> added.0 == m)
      && (added.1.Ok? ==>
            var slot := added.1.value;
            && slot < |m.slots| && m.slots[slot].None? && (forall i :: 0 <= i < slot ==> m.slots[i].Some?)
            && added.0 == m.(slots := m.slots[slot := Some(Source(feed, Levels(gain, gain, 0.0, gain, gain, 0.0, 0)))]))
  {
    if FirstFree(m.slots).Some? {
      assert m.slots[FirstFree(m.slots).value].None?;
    }
  }

  /** Retargeting and removing are refused exactly for bad gains or an empty
      slot, and otherwise touch that slot only. */
  lemma SlotOperationsExactly(m: Mixer, slot: nat, front: real, rear: real)
    requires m.fadeFrames > 0
    ensures var known := slot < |m.slots| && m.slots[slot].Some?;
      var leveled, removed := SetLevels(m, slot, front, rear), RemoveSource(m, slot);
      && (leveled.1 == Err(BadGain) <==> !(0.0 <= front <= 1.0 && 0.0 <= rear <= 1.0))
      && (leveled.1 == Err(UnknownSource) <==> 0.0 <= front <= 1.0 && 0.0 <= rear <= 1.0 && !known)
      && (removed.1 == Err(UnknownSource) <==> !known)
      && (leveled.1.Err? ==> leveled.0 == m) && (removed.1.Err? ==> removed.0 == m)
      && (leveled.1.Ok? ==>
            && leveled.0.slots[slot].value.feed == m.slots[slot].value.feed
            && leveled.0.slots == m.slots[slot := leveled.0.slots[slot]])
      && (removed.1.Ok? ==> removed.0.slots == m.slots[slot := None])
  {
  }

  /** What is in a slot plays on without a look at the others. */
  lemma {:induction false} SlotsPlayAlone(slots: Slots, s: nat, other: Option<Source>, n: nat, withRear: bool)
    requires s < |slots|
    ensures var played, changed := AfterFrames(slots, n, withRear), AfterFrames(slots[s := other], n, withRear);
      |played| == |changed| == |slots| && changed == played[s := changed[s]]
    ensures other.None? ==> AfterFrames(slots[s := other], n, withRear)[s].None?
    decreases n
  {
    hide Played;
    if n > 0 {
      var next := AfterFrame(slots, withRear);
      assert AfterFrame(slots[s := other], withRear) == next[s := Played(other, withRear)];
      NothingPlays(withRear);
      SlotsPlayAlone(next, s, Played(other, withRear), n - 1, withRear);
    }
  }

  lemma NothingPlays(withRear: bool)
    ensures Played(None, withRear) == None
  {
  }

  /** A source that is added, played for as long as one likes and removed, or
      ended by then, leaves the mixer as if it had never been there. */
  lemma {:induction false} AddPlayRemove(m: Mixer, feed: Feed, gain: real, n: nat, withRear: bool)
    requires AddFeed(m, feed, gain).1.Ok?
    ensures var (added, slot) := AddFeed(m, feed, gain);
      RemoveSource(Render(added, n, withRear).1, slot.value).0 == Render(m, n, withRear).1
  {
    hide AfterFrames, Frames, AddFeed, Ended, Unit, Constant;
    AddTakesFirstFree(m, feed, gain);
    var s, source := AddFeed(m, feed, gain).1.value, AddFeed(m, feed, gain).0.slots;
    SlotsPlayAlone(m.slots, s, source[s], n, withRear);
    SlotsPlayAlone(m.slots, s, None, n, withRear);
    assert m.slots[s := None] == m.slots;
    var with, without := Cleaned(AfterFrames(source, n, withRear)), Cleaned(AfterFrames(m.slots, n, withRear));
    assert without[s].None?;
    assert with[s := None] == without;
  }

  /** Retargeting a source changes nothing the others ever play. */
  lemma {:induction false} LevelsAreLocal(m: Mixer, slot: nat, front: real, rear: real, n: nat, withRear: bool, i: nat)
    requires m.fadeFrames > 0 && SetLevels(m, slot, front, rear).1.Ok? && i < |m.slots| && i != slot
    ensures var before, after := Render(m, n, withRear).1, Render(SetLevels(m, slot, front, rear).0, n, withRear).1;
      |before.slots| == |after.slots| == |m.slots| && after.slots[i] == before.slots[i]
  {
    hide AfterFrames, Frames, Ended, Unit, SetLevels;
    SlotOperationsExactly(m, slot, front, rear);
    assert SetLevels(m, slot, front, rear).0.slots == m.slots[slot := SetLevels(m, slot, front, rear).0.slots[slot]];
    SlotsPlayAlone(m.slots, slot, SetLevels(m, slot, front, rear).0.slots[slot], n, withRear);
  }

  // ------------------------------------------------------------- whole mixers

  ghost predicate SoundSource(source: Source, fadeFrames: nat)
    requires fadeFrames > 0
  {
    && Fading(source.levels, fadeFrames)
    && (source.feed.Samples? ==> |source.feed.samples| % CHANNELS == 0 && source.feed.position % CHANNELS == 0)
  }

  /** Between two calls. */
  ghost predicate SoundMixer(m: Mixer) {
    && |m.slots| == MAX_SOURCES && m.fadeFrames > 0
    && NoneEnded(m.slots)
    && forall i :: 0 <= i < |m.slots| && m.slots[i].Some? ==> SoundSource(m.slots[i].value, m.fadeFrames)
  }

  datatype Op =
    | AddSamples(samples: seq<real>, gain: real)
    | AddStream(id: nat, queued: seq<real>, gain: real)
    | Level(slot: nat, front: real, rear: real)
    | Drop(slot: nat)
    | Play(frames: nat, withRear: bool)
    | Refill(slot: nat, more: seq<real>)

  /** The decoder of slot `slot` puts `more` into its ring. */
  function Refilled(slots: Slots, slot: nat, more: seq<real>): Slots {
    if slot < |slots| && slots[slot].Some? && slots[slot].value.feed.Stream? then
      var source := slots[slot].value;
      slots[slot := Some(source.(feed := source.feed.(queued := source.feed.queued + more)))]
    else slots
  }

  function Step(m: Mixer, op: Op): Mixer
    requires m.fadeFrames > 0
    ensures Step(m, op).fadeFrames == m.fadeFrames
  {
    match op
    case AddSamples(samples, gain) => AddSource(m, samples, gain).0
    case AddStream(id, queued, gain) => AddStreamSource(m, id, queued, gain).0
    case Level(slot, front, rear) => SetLevels(m, slot, front, rear).0
    case Drop(slot) => RemoveSource(m, slot).0
    case Play(frames, withRear) => Render(m, frames, withRear).1
    case Refill(slot, more) => m.(slots := Refilled(m.slots, slot, more))
  }

  function Run(m: Mixer, ops: seq<Op>): Mixer
    requires m.fadeFrames > 0
    ensures Run(m, ops).fadeFrames == m.fadeFrames
  {
    if ops == [] then m else Step(Run(m, ops[..|ops| - 1]), ops[|ops| - 1])
  }

  lemma PlayingKeepsSources(slots: Slots, n: nat, withRear: bool, fadeFrames: nat)
    requires fadeFrames > 0
    requires forall i :: 0 <= i < |slots| && slots[i].Some? ==> SoundSource(slots[i].value, fadeFrames)
    ensures var after := AfterFrames(slots, n, withRear);
      |after| == |slots| && forall i :: 0 <= i < |after| && after[i].Some? ==> SoundSource(after[i].value, fadeFrames)
    decreases n
  {
    hide OnTheWay;
    if n > 0 {
      var next := AfterFrame(slots, withRear);
      forall i | 0 <= i < |next| && next[i].Some? ensures SoundSource(next[i].value, fadeFrames) {
        AdvanceKeepsFading(slots[i].value.levels, fadeFrames);
      }
      PlayingKeepsSources(next, n - 1, withRear, fadeFrames);
    }
  }

  lemma {:induction false} StepKeepsSound(m: Mixer, op: Op)
    requires SoundMixer(m)
    ensures SoundMixer(Step(m, op))
  {
    hide OnTheWay;
    if op.Play? {
      PlayingKeepsSources(m.slots, op.frames, op.withRear, m.fadeFrames);
    } else if op.Level? {
      if Unit(op.front) && Unit(op.rear) && op.slot < |m.slots| && m.slots[op.slot].Some? {
        RetargetStartsFading(m.slots[op.slot].value.levels, op.front, op.rear, m.fadeFrames);
      }
    } else if op.AddSamples? {
      ConstantIsFading(op.gain, m.fadeFrames);
    } else if op.AddStream? {
      ConstantIsFading(op.gain, m.fadeFrames);
    }
  }

  lemma ConstantIsFading(gain: real, fadeFrames: nat)
    requires fadeFrames > 0
    ensures Unit(gain) ==> Fading(Constant(gain), fadeFrames)
  {
  }

  /** Whatever is added, faded, removed and rendered, every gain stays in
      [0, 1] on its way to its target, and no ended source is kept. */
  lemma {:induction false} AlwaysSound(sampleRate: nat, fadeMilliseconds: nat, ops: seq<Op>)
    ensures SoundMixer(Run(NewMixer(sampleRate, fadeMilliseconds), ops))
  {
    if ops != [] {
      AlwaysSound(sampleRate, fadeMilliseconds, ops[..|ops| - 1]);
      StepKeepsSound(Run(NewMixer(sampleRate, fadeMilliseconds), ops[..|ops| - 1]), ops[|ops| - 1]);
    }
  }
}
