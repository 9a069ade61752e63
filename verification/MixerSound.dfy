/** What is heard: which samples of a source come out, on which side and how
    loud, and that sources add up. */
module MixerSound {
  import opened Wrappers
  import opened MixerModel
  import opened MixerProofs

  // ---------------------------------------------------------------- one slot

  /** The next two samples of a source; a ring's last one goes to both sides,
      and where there is none there is silence. */
  function NextTwo(feed: Feed): (real, real) {
    if feed.Samples? then
      if feed.position + 2 <= |feed.samples| then (feed.samples[feed.position], feed.samples[feed.position + 1]) else (0.0, 0.0)
    else if |feed.queued| >= 2 then (feed.queued[0], feed.queued[1])
    else if |feed.queued| == 1 then (feed.queued[0], feed.queued[0])
    else (0.0, 0.0)
  }

  /** What comes after them. */
  function Further(feed: Feed): Feed {
    if feed.Samples? then Samples(feed.samples, if feed.position + 2 <= |feed.samples| then feed.position + 2 else feed.position)
    else Stream(feed.id, if |feed.queued| >= 2 then feed.queued[2..] else [])
  }

  /** Left goes left and right goes right, in front at the gain and behind at
      the rear gain of this frame. */
  lemma SlotAdds(source: Source, withRear: bool)
    ensures var l, two, sound := AdvanceTimes(source.levels, 1), NextTwo(source.feed), Sound(Some(source), withRear);
      && sound.left == two.0 * l.gain && sound.right == two.1 * l.gain
      && sound.rearLeft == (if withRear then two.0 * l.rear else 0.0)
      && sound.rearRight == (if withRear then two.1 * l.rear else 0.0)
  {
    assert AdvanceTimes(source.levels, 1) == Advance(AdvanceTimes(source.levels, 0));
  }

  /** At rest it is its gains as they are. */
  lemma AtRestAdds(source: Source, withRear: bool)
    requires source.levels.remaining == 0
    ensures var l, two, sound := source.levels, NextTwo(source.feed), Sound(Some(source), withRear);
      && sound.left == two.0 * l.gain && sound.right == two.1 * l.gain
      && (withRear ==> sound.rearLeft == two.0 * l.rear && sound.rearRight == two.1 * l.rear)
  {
  }

  /** And only what is not muted is used up. */
  lemma SlotGoesOn(source: Source, withRear: bool)
    ensures var l := AdvanceTimes(source.levels, 1);
      Played(Some(source), withRear) == Some(Source(if IsMuted(l, withRear) then source.feed else Further(source.feed), l))
  {
    assert AdvanceTimes(source.levels, 1) == Advance(AdvanceTimes(source.levels, 0));
    assert source.feed.Stream? && |source.feed.queued| < 2 ==> source.feed.queued[|source.feed.queued|..] == [];
  }

  // ------------------------------------------------------------ several slots

  lemma {:induction false} NothingSounds(slots: Slots, withRear: bool)
    requires forall i :: 0 <= i < |slots| ==> slots[i].None?
    ensures Sum(slots, withRear) == Frame(0.0, 0.0, 0.0, 0.0)
    decreases |slots|
  {
    if slots != [] {
      NothingSounds(slots[..|slots| - 1], withRear);
    }
  }

  /** Every source adds to the others what it gives alone. */
  lemma {:induction false} SourcesAddUp(slots: Slots, s: nat, withRear: bool)
    requires s < |slots|
    ensures var all, others, alone := Sum(slots, withRear), Sum(slots[s := None], withRear), Sum([slots[s]], withRear);
      && all.left == others.left + alone.left && all.right == others.right + alone.right
      && all.rearLeft == others.rearLeft + alone.rearLeft && all.rearRight == others.rearRight + alone.rearRight
    decreases |slots|
  {
    hide Sound;
    var n := |slots| - 1;
    OneAlone(slots[s], withRear);
    SilentNone(withRear);
    if s < n {
      SourcesAddUp(slots[..n], s, withRear);
      assert slots[s := None][..n] == slots[..n][s := None];
    } else {
      assert slots[s := None][..n] == slots[..n];
    }
  }

  lemma OneAlone(slot: Option<Source>, withRear: bool)
    ensures Sum([slot], withRear) == Sound(slot, withRear)
  {
    hide Sound;
    assert [slot][..0] == [];
  }

  lemma SilentNone(withRear: bool)
    ensures Sound(None, withRear) == Frame(0.0, 0.0, 0.0, 0.0)
  {
  }

  /** Beyond full scale a sample stays at full scale. */
  function Limited(x: real): real { if x > 1.0 then 1.0 else if x < -1.0 then -1.0 else x }

  /** A sample at a gain. */
  function At(x: real, gain: real): real { x * gain }

  function Heard(x: real, gain: real): real { Limited(At(x, gain)) }

  lemma MixedIsLimited(slots: Slots, withRear: bool)
    ensures var sum, mixed := Sum(slots, withRear), Mixed(slots, withRear);
      && mixed.left == Limited(sum.left) && mixed.right == Limited(sum.right)
      && mixed.rearLeft == Limited(sum.rearLeft) && mixed.rearRight == Limited(sum.rearRight)
  {
    hide Sum;
  }

  // ---------------------------------------------------------- a source alone

  /** Only slot `s` holds a source, of a ring. */
  ghost predicate Alone(slots: Slots, s: nat, id: nat, queued: seq<real>, levels: Levels) {
    && s < |slots| && slots[s] == Some(Source(Stream(id, queued), levels))
    && forall i :: 0 <= i < |slots| && i != s ==> slots[i].None?
  }

  lemma AloneSounds(slots: Slots, s: nat, id: nat, queued: seq<real>, levels: Levels, withRear: bool)
    requires Alone(slots, s, id, queued, levels) && |queued| >= 2
    ensures var f, l := Mixed(slots, withRear), Advance(levels);
      && f.left == Heard(queued[0], l.gain) && f.right == Heard(queued[1], l.gain)
      && (withRear ==> f.rearLeft == Heard(queued[0], l.rear) && f.rearRight == Heard(queued[1], l.rear))
      && (!withRear ==> f.rearLeft == 0.0 && f.rearRight == 0.0)
  {
    hide Sum, Sound, Advance, Mixed, Alone, At;
    AloneIsAll(slots, s, id, queued, levels, withRear);
    AloneAdds(id, queued, levels, withRear);
    MixedIsLimited(slots, withRear);
  }

  lemma AloneIsAll(slots: Slots, s: nat, id: nat, queued: seq<real>, levels: Levels, withRear: bool)
    requires Alone(slots, s, id, queued, levels)
    ensures Sum(slots, withRear) == Sound(Some(Source(Stream(id, queued), levels)), withRear)
  {
    hide Sound;
    SourcesAddUp(slots, s, withRear);
    NothingSounds(slots[s := None], withRear);
    OneAlone(slots[s], withRear);
  }

  lemma AloneAdds(id: nat, queued: seq<real>, levels: Levels, withRear: bool)
    requires |queued| >= 2
    ensures var sound, l := Sound(Some(Source(Stream(id, queued), levels)), withRear), Advance(levels);
      && sound.left == At(queued[0], l.gain) && sound.right == At(queued[1], l.gain)
      && sound.rearLeft == (if withRear then At(queued[0], l.rear) else 0.0)
      && sound.rearRight == (if withRear then At(queued[1], l.rear) else 0.0)
  {
    hide Sound, Advance;
    SlotAdds(Source(Stream(id, queued), levels), withRear);
    assert AdvanceTimes(levels, 1) == Advance(AdvanceTimes(levels, 0)) == Advance(levels);
  }

  lemma AloneGoesOn(slots: Slots, s: nat, id: nat, queued: seq<real>, levels: Levels, withRear: bool)
    requires Alone(slots, s, id, queued, levels) && |queued| >= 2 && !IsMuted(Advance(levels), withRear)
    ensures Alone(AfterFrame(slots, withRear), s, id, queued[2..], Advance(levels))
  {
    hide Advance, Played;
    SlotGoesOn(slots[s].value, withRear);
    assert AdvanceTimes(levels, 1) == Advance(AdvanceTimes(levels, 0)) == Advance(levels);
    NothingPlays(withRear);
  }

  lemma {:induction false} AdvanceFirst(l: Levels, n: nat)
    ensures AdvanceTimes(Advance(l), n) == AdvanceTimes(l, n + 1)
    decreases n
  {
    hide Advance;
    if n > 0 {
      AdvanceFirst(l, n - 1);
    } else {
      assert AdvanceTimes(l, 1) == Advance(AdvanceTimes(l, 0));
    }
  }

  /** The k-th frame of a ring alone in the mixer carries its samples 2k on the
      left and 2k+1 on the right, at the gains its fade has reached. */
  lemma {:induction false} StreamIsHeard(slots: Slots, n: nat, withRear: bool, s: nat, id: nat, queued: seq<real>, levels: Levels, k: nat)
    requires k < n && Alone(slots, s, id, queued, levels) && 2 * k + 2 <= |queued|
    requires forall j :: 0 < j <= k ==> !IsMuted(AdvanceTimes(levels, j), withRear)
    ensures var f, l := Frames(slots, n, withRear)[k], AdvanceTimes(levels, k + 1);
      && f.left == Heard(queued[2 * k], l.gain) && f.right == Heard(queued[2 * k + 1], l.gain)
      && (withRear ==> f.rearLeft == Heard(queued[2 * k], l.rear) && f.rearRight == Heard(queued[2 * k + 1], l.rear))
      && (!withRear ==> f.rearLeft == 0.0 && f.rearRight == 0.0)
    decreases k
  {
    hide Mixed, Advance, AfterFrame, Heard, Alone, IsMuted;
    AdvanceFirst(levels, 0);
    assert AdvanceTimes(Advance(levels), 0) == Advance(levels);
    if k == 0 {
      AloneSounds(slots, s, id, queued, levels, withRear);
      assert Frames(slots, n, withRear)[k] == Mixed(slots, withRear);
      assert AdvanceTimes(levels, k + 1) == Advance(levels);
      assert queued[2 * k] == queued[0] && queued[2 * k + 1] == queued[1];
    } else {
      assert !IsMuted(AdvanceTimes(levels, 1), withRear);
      AloneGoesOn(slots, s, id, queued, levels, withRear);
      forall j | 0 < j <= k - 1 ensures !IsMuted(AdvanceTimes(Advance(levels), j), withRear) {
        AdvanceFirst(levels, j);
      }
      AdvanceFirst(levels, k);
      StreamIsHeard(AfterFrame(slots, withRear), n - 1, withRear, s, id, queued[2..], Advance(levels), k - 1);
      assert Frames(slots, n, withRear)[k] == Frames(AfterFrame(slots, withRear), n - 1, withRear)[k - 1];
      assert queued[2..][2 * (k - 1)] == queued[2 * k] && queued[2..][2 * (k - 1) + 1] == queued[2 * k + 1];
    }
  }

  // ---------------------------------------------------------------- an `Add`

  lemma {:induction false} StaysAtRest(l: Levels, n: nat)
    requires l.remaining == 0
    ensures AdvanceTimes(l, n) == l
    decreases n
  {
    if n > 0 {
      StaysAtRest(l, n - 1);
    }
  }

  /** A track added to an empty mixer is heard as it is, limited to full scale,
      on the front and, where there are some, on the rear speakers. */
  lemma {:induction false} AddedIsHeard(m: Mixer, id: nat, queued: seq<real>, n: nat, withRear: bool, k: nat)
    requires m.fadeFrames > 0 && |m.slots| > 0 && (forall i :: 0 <= i < |m.slots| ==> m.slots[i].None?)
    requires k < n && 2 * k + 2 <= |queued|
    ensures var (added, answer) := Apply(m, Add(id, queued), false); var f := Render(added, n, withRear).0[k];
      && answer == Some(Ok(0))
      && f.left == Limited(queued[2 * k]) && f.right == Limited(queued[2 * k + 1])
      && f.rearLeft == (if withRear then Limited(queued[2 * k]) else 0.0)
      && f.rearRight == (if withRear then Limited(queued[2 * k + 1]) else 0.0)
  {
    hide Frames, AfterFrames, FirstFree, Limited;
    AddTakesFirstFree(m, Stream(id, queued), 1.0);
    var full := Levels(1.0, 1.0, 0.0, 1.0, 1.0, 0.0, 0);
    var added := Apply(m, Add(id, queued), false).0;
    assert Alone(added.slots, 0, id, queued, full);
    forall j | 0 < j <= k ensures !IsMuted(AdvanceTimes(full, j), withRear) {
      StaysAtRest(full, j);
    }
    StaysAtRest(full, k + 1);
    StreamIsHeard(added.slots, n, withRear, 0, id, queued, full, k);
    assert Render(added, n, withRear).0 == Frames(added.slots, n, withRear);
    assert AdvanceTimes(full, k + 1) == full;
    assert Heard(queued[2 * k], 1.0) == Limited(queued[2 * k]) && Heard(queued[2 * k + 1], 1.0) == Limited(queued[2 * k + 1]) by {
      AtFull(queued[2 * k]);
      AtFull(queued[2 * k + 1]);
    }
  }

  lemma AtFull(x: real)
    ensures Heard(x, 1.0) == Limited(x)
  {
  }

  /** A ready buffer is taken exactly if it is whole frames and not empty. */
  lemma BuffersAreFrames(m: Mixer, samples: seq<real>, gain: real)
    ensures AddSource(m, samples, gain).1 == Err(BadSamples) <==> samples == [] || |samples| % 2 == 1
    ensures samples != [] && |samples| % 2 == 0 ==> AddSource(m, samples, gain) == AddFeed(m, Samples(samples, 0), gain)
    ensures AddSource(m, samples, gain).1.Err? ==> AddSource(m, samples, gain).0 == m
  {
  }

  /** A ready buffer leaves its slot exactly when it has been played. */
  lemma PlayedBuffersGo(m: Mixer, n: nat, withRear: bool, i: nat)
    requires i < |m.slots| == |AfterFrames(m.slots, n, withRear)|
    ensures var before, after := AfterFrames(m.slots, n, withRear)[i], Render(m, n, withRear).1.slots[i];
      after == if before.Some? && before.value.feed.Samples? && before.value.feed.position >= |before.value.feed.samples| then None else before
  {
    hide AfterFrames, Frames;
  }

  // --------------------------------------------------------------- the device

  /** Eight slots, and fades of so many milliseconds, at least one frame. */
  lemma MixerIsNew(sampleRate: nat, fadeMilliseconds: nat)
    ensures var m := NewMixer(sampleRate, fadeMilliseconds);
      && |m.slots| == 8 && (forall i :: 0 <= i < 8 ==> m.slots[i].None?)
      && m.fadeFrames > 0
      && (m.fadeFrames > 1 ==> 1000 * m.fadeFrames <= sampleRate * fadeMilliseconds < 1000 * m.fadeFrames + 1000)
      && (sampleRate * fadeMilliseconds >= 2000 ==> m.fadeFrames > 1)
  {
  }

  /** The channels of one frame: front left and right, from four channels on
      rear left and right at their level, and silence on the rest; on a single
      channel the middle of the two. */
  predicate OnChannels(out: seq<real>, f: Frame, channels: nat, rearLevel: real) {
    && |out| == channels
    && (channels == 1 ==> out[0] == (f.left + f.right) / 2.0)
    && (channels >= 2 ==> out[0] == f.left && out[1] == f.right)
    && (channels >= 4 ==> out[2] == f.rearLeft * rearLevel && out[3] == f.rearRight * rearLevel)
    && (forall c :: 2 <= c < channels && (c >= 4 || channels < 4) ==> out[c] == 0.0)
  }

  lemma LaidOnChannels(f: Frame, channels: nat, rearLevel: real)
    requires channels > 0
    ensures OnChannels(Laid(f, channels, rearLevel, channels), f, channels, rearLevel)
  {
  }

  lemma {:induction false} LaidAllAt(frames: seq<Frame>, channels: nat, rearLevel: real, k: nat)
    requires channels > 0 && k < |frames|
    ensures |LaidAll(frames, channels, rearLevel)| == |frames| * channels
    ensures k * channels + channels <= |frames| * channels
    ensures LaidAll(frames, channels, rearLevel)[k * channels..k * channels + channels] == Laid(frames[k], channels, rearLevel, channels)
    decreases |frames|
  {
    hide Laid;
    var all, rest := LaidAll(frames, channels, rearLevel), LaidAll(frames[1..], channels, rearLevel);
    LaidAllLength(frames, channels, rearLevel);
    Multiples(k, |frames|, channels);
    if k > 0 {
      LaidAllAt(frames[1..], channels, rearLevel, k - 1);
      assert k * channels == (k - 1) * channels + channels;
      assert all[k * channels..k * channels + channels] == rest[(k - 1) * channels..(k - 1) * channels + channels];
    }
  }

  lemma Multiples(k: nat, n: nat, channels: nat)
    requires k < n
    ensures k * channels + channels <= n * channels
  {
    assert (k + 1) * channels <= n * channels;
  }

  lemma {:induction false} LaidAllLength(frames: seq<Frame>, channels: nat, rearLevel: real)
    ensures |LaidAll(frames, channels, rearLevel)| == |frames| * channels
    decreases |frames|
  {
    hide Laid;
    if frames != [] {
      LaidAllLength(frames[1..], channels, rearLevel);
      assert |frames| * channels == (|frames| - 1) * channels + channels;
    }
  }

  /** On every device the k-th frame of one bulk render is on the k-th group of
      its channels. */
  lemma {:induction false} DeviceGetsRender(m: Mixer, n: nat, channels: nat, rearLevel: real, k: nat)
    requires channels > 0 && NoneEnded(m.slots) && k < n
    ensures var out := Fill(m, n * channels, channels, rearLevel).0; var f := Render(m, n, channels >= 4).0[k];
      k * channels + channels <= |out| && OnChannels(out[k * channels..k * channels + channels], f, channels, rearLevel)
  {
    hide Fill, Render, Laid, LaidAll, OnChannels, NoneEnded;
    FillIsOneRender(m, n, channels, rearLevel);
    LaidAllAt(Render(m, n, channels >= 4).0, channels, rearLevel, k);
    LaidOnChannels(Render(m, n, channels >= 4).0[k], channels, rearLevel);
  }
}
