/** `AudioMixer` and `fill_output`, updating slots and outputs in place. */
module AudioMixers {
  import opened Wrappers
  import Model = MixerModel

  type Source = Model.Source
  type MixerError = Model.MixerError

  const MAX_SOURCES := Model.MAX_SOURCES
  const CHANNELS := Model.CHANNELS
  const SURROUND_CHANNELS := Model.SURROUND_CHANNELS

  /** The samples of one frame, and of several, as an output holds them. */
  function Flat(frame: Model.Frame, width: nat): (r: seq<real>)
    requires width == CHANNELS || width == SURROUND_CHANNELS
    ensures |r| == width
  {
    if width == CHANNELS then [frame.left, frame.right] else [frame.left, frame.right, frame.rearLeft, frame.rearRight]
  }

  function FlatAll(frames: seq<Model.Frame>, width: nat): (r: seq<real>)
    requires width == CHANNELS || width == SURROUND_CHANNELS
    ensures |r| == |frames| * width
    decreases |frames|
  {
    if frames == [] then [] else FlatAll(frames[..|frames| - 1], width) + Flat(frames[|frames| - 1], width)
  }

  lemma {:induction false} OneMoreFrame(slots: Model.Slots, n: nat, withRear: bool)
    ensures Model.AfterFrames(slots, n + 1, withRear) == Model.AfterFrame(Model.AfterFrames(slots, n, withRear), withRear)
    ensures Model.Frames(slots, n + 1, withRear)
         == Model.Frames(slots, n, withRear) + [Model.Mixed(Model.AfterFrames(slots, n, withRear), withRear)]
    decreases n
  {
    hide Model.Mixed, Model.AfterFrame;
    if n > 0 {
      OneMoreFrame(Model.AfterFrame(slots, withRear), n - 1, withRear);
    } else {
      assert Model.Frames(Model.AfterFrame(slots, withRear), 0, withRear) == [];
      assert Model.Frames(slots, 0, withRear) == [];
    }
  }

  function ApplyAll(m: Model.Mixer, commands: seq<(Model.Command, bool)>): (r: (Model.Mixer, seq<Option<Result<nat, MixerError>>>))
    requires m.fadeFrames > 0
    ensures r.0.fadeFrames == m.fadeFrames && |r.0.slots| == |m.slots| && |r.1| == |commands|
    decreases |commands|
  {
    if commands == [] then (m, [])
    else
      var before := ApplyAll(m, commands[..|commands| - 1]);
      var last := Model.Apply(before.0, commands[|commands| - 1].0, commands[|commands| - 1].1);
      (last.0, before.1 + [last.1])
  }

  class AudioMixer {
    const sources: array<Option<Source>>
    const fadeFrames: nat

    ghost predicate Valid() {
      sources.Length == MAX_SOURCES && fadeFrames > 0
    }

    ghost function Value(): Model.Mixer
      reads sources
    {
      Model.Mixer(sources[..], fadeFrames)
    }

    constructor (sampleRate: nat, fadeMilliseconds: nat)
      ensures Valid() && fresh(sources)
      ensures Value() == Model.NewMixer(sampleRate, fadeMilliseconds)
    {
      var frames := sampleRate * fadeMilliseconds / 1000;
      fadeFrames := if frames < 1 then 1 else frames;
      var none: array<Option<Source>> := new Option<Source>[MAX_SOURCES](_ => None);
      sources := none;
      new;
      assert sources[..] == Model.NewMixer(sampleRate, fadeMilliseconds).slots;
    }

    method FirstFree() returns (free: Option<nat>)
      ensures free == Model.FirstFree(sources[..])
    {
      var i := 0;
      while i < sources.Length
        invariant i <= sources.Length
        invariant forall k :: 0 <= k < i ==> sources[k].Some?
      {
        if sources[i].None? {
          assert forall k :: 0 <= k < i ==> sources[..][k].Some?;
          assert sources[..][i].None?;
          return Some(i);
        }
        i := i + 1;
      }
      assert forall k :: 0 <= k < i ==> sources[..][k].Some?;
      free := None;
    }

    method AddFeed(feed: Model.Feed, gain: real) returns (added: Result<nat, MixerError>)
      requires Valid()
      modifies sources
      ensures (Value(), added) == Model.AddFeed(old(Value()), feed, gain)
    {
      if gain < 0.0 || gain > 1.0 {
        return Err(Model.BadGain);
      }
      var slot := FirstFree();
      if slot.None? {
        return Err(Model.LimitReached);
      }
      sources[slot.value] := Some(Model.Source(feed, Model.Constant(gain)));
      added := Ok(slot.value);
    }

    method AddSource(samples: seq<real>, gain: real) returns (added: Result<nat, MixerError>)
      requires Valid()
      modifies sources
      ensures (Value(), added) == Model.AddSource(old(Value()), samples, gain)
    {
      if |samples| == 0 || |samples| % CHANNELS != 0 {
        return Err(Model.BadSamples);
      }
      added := AddFeed(Model.Samples(samples, 0), gain);
    }

    method AddStreamSource(id: nat, queued: seq<real>, gain: real) returns (added: Result<nat, MixerError>)
      requires Valid()
      modifies sources
      ensures (Value(), added) == Model.AddStreamSource(old(Value()), id, queued, gain)
    {
      added := AddFeed(Model.Stream(id, queued), gain);
    }

    method SetLevels(slot: nat, front: real, rear: real) returns (done: Result<(), MixerError>)
      requires Valid()
      modifies sources
      ensures (Value(), done) == Model.SetLevels(old(Value()), slot, front, rear)
    {
      if front < 0.0 || front > 1.0 || rear < 0.0 || rear > 1.0 {
        return Err(Model.BadGain);
      }
      if slot >= sources.Length || sources[slot].None? {
        return Err(Model.UnknownSource);
      }
      var source := sources[slot].value;
      var frames := fadeFrames as real;
      var levels := source.levels.(target := front, rearTarget := rear, remaining := fadeFrames);
      levels := levels.(step := (front - levels.gain) / frames, rearStep := (rear - levels.rear) / frames);
      sources[slot] := Some(source.(levels := levels));
      done := Ok(());
    }

    method RemoveSource(slot: nat) returns (done: Result<(), MixerError>)
      requires Valid()
      modifies sources
      ensures (Value(), done) == Model.RemoveSource(old(Value()), slot)
    {
      if slot >= sources.Length || sources[slot].None? {
        return Err(Model.UnknownSource);
      }
      sources[slot] := None;
      done := Ok(());
    }

    /** What the inner loop of `render_frames` does with slot `j` for the frame
        at `base`. */
    method PlaySlot(output: array<real>, base: nat, width: nat, j: nat)
      requires j < sources.Length
      requires (width == CHANNELS || width == SURROUND_CHANNELS) && base + width <= output.Length
      modifies sources, output
      ensures sources[..] == old(sources[..])[j := Model.Played(old(sources[j]), width == SURROUND_CHANNELS)]
      ensures var sound := Model.Sound(old(sources[j]), width == SURROUND_CHANNELS);
        && output[base] == old(output[base]) + sound.left && output[base + 1] == old(output[base + 1]) + sound.right
        && (width == SURROUND_CHANNELS ==>
              && output[base + 2] == old(output[base + 2]) + sound.rearLeft
              && output[base + 3] == old(output[base + 3]) + sound.rearRight)
      ensures forall k :: 0 <= k < base || base + width <= k < output.Length ==> output[k] == old(output[k])
    {
      hide Model.Pair, Model.Pulled, Model.Advance, Model.Muted;
      var withRear := width == SURROUND_CHANNELS;
      if sources[j].None? {
        return;
      }
      var source := sources[j].value;
      source := source.(levels := Model.Advance(source.levels));
      sources[j] := Some(source);
      if Model.Muted(source.levels, withRear) {
        return;
      }
      var pair := Model.Pair(source.feed);
      sources[j] := Some(source.(feed := Model.Pulled(source.feed)));
      if pair.None? {
        return;
      }
      output[base] := output[base] + pair.value.0 * source.levels.gain;
      output[base + 1] := output[base + 1] + pair.value.1 * source.levels.gain;
      if withRear {
        output[base + 2] := output[base + 2] + pair.value.0 * source.levels.rear;
        output[base + 3] := output[base + 3] + pair.value.1 * source.levels.rear;
      }
    }

    /** The loop over the sources. */
    method PlaySlots(output: array<real>, base: nat, width: nat)
      requires (width == CHANNELS || width == SURROUND_CHANNELS) && base + width <= output.Length
      requires forall k :: base <= k < base + width ==> output[k] == 0.0
      modifies sources, output
      ensures sources[..] == Model.AfterFrame(old(sources[..]), width == SURROUND_CHANNELS)
      ensures var sum := Model.Sum(old(sources[..]), width == SURROUND_CHANNELS);
        && output[base] == sum.left && output[base + 1] == sum.right
        && (width == SURROUND_CHANNELS ==> output[base + 2] == sum.rearLeft && output[base + 3] == sum.rearRight)
      ensures forall k :: 0 <= k < base || base + width <= k < output.Length ==> output[k] == old(output[k])
    {
      hide Model.Sound, Model.Played;
      ghost var withRear := width == SURROUND_CHANNELS;
      ghost var before := sources[..];
      var j := 0;
      while j < sources.Length
        invariant j <= sources.Length
        invariant forall i :: 0 <= i < j ==> sources[i] == Model.Played(before[i], withRear)
        invariant forall i :: j <= i < sources.Length ==> sources[i] == before[i]
        invariant var sum := Model.Sum(before[..j], withRear);
          && output[base] == sum.left && output[base + 1] == sum.right
          && (withRear ==> output[base + 2] == sum.rearLeft && output[base + 3] == sum.rearRight)
        invariant forall k :: 0 <= k < base || base + width <= k < output.Length ==> output[k] == old(output[k])
      {
        assert before[..j + 1][..j] == before[..j];
        ghost var prior := sources[..];
        PlaySlot(output, base, width, j);
        assert forall i :: 0 <= i < sources.Length && i != j ==> sources[..][i] == prior[i];
        j := j + 1;
      }
      assert before[..j] == before;
      assert sources[..] == Model.AfterFrame(before, withRear);
    }

    /** The frame at `base`: the sources, then the limit of each sample. */
    method RenderFrame(output: array<real>, base: nat, width: nat)
      requires Valid() && (width == CHANNELS || width == SURROUND_CHANNELS) && base + width <= output.Length
      requires forall k :: base <= k < base + width ==> output[k] == 0.0
      modifies sources, output
      ensures sources[..] == Model.AfterFrame(old(sources[..]), width == SURROUND_CHANNELS)
      ensures output[base..base + width] == Flat(Model.Mixed(old(sources[..]), width == SURROUND_CHANNELS), width)
      ensures forall k :: 0 <= k < base || base + width <= k < output.Length ==> output[k] == old(output[k])
    {
      hide Model.Sum, Model.AfterFrame, Model.Clamp;
      ghost var mixed := Model.Mixed(sources[..], width == SURROUND_CHANNELS);
      PlaySlots(output, base, width);
      ClampFrame(output, base, width);
      assert output[base] == mixed.left && output[base + 1] == mixed.right;
      if width == SURROUND_CHANNELS {
        assert output[base + 2] == mixed.rearLeft && output[base + 3] == mixed.rearRight;
      }
      assert output[base..base + width] == Flat(mixed, width);
    }

    /** `render_frames`: `n` frames of `width` samples. */
    method RenderFrames(output: array<real>, width: nat, n: nat)
      requires Valid() && (width == CHANNELS || width == SURROUND_CHANNELS) && output.Length == n * width
      modifies sources, output
      ensures var whole := Model.Render(old(Value()), n, width == SURROUND_CHANNELS);
        Value() == whole.1 && output[..] == FlatAll(whole.0, width)
    {
      hide Model.Mixed, Model.AfterFrame, Model.Ended, Model.AfterFrames, Model.Frames, FlatAll;
      ghost var withRear := width == SURROUND_CHANNELS;
      ghost var before := sources[..];
      Zero(output);
      var base := 0;
      ghost var i := 0;
      StartOfFrames(before, withRear, width);
      while base < output.Length
        invariant i <= n && base == i * width
        invariant sources[..] == Model.AfterFrames(before, i, withRear)
        invariant output[..base] == FlatAll(Model.Frames(before, i, withRear), width)
        invariant forall k :: base <= k < output.Length ==> output[k] == 0.0
      {
        RoomForFrame(i, n, width);
        ghost var done := output[..base];
        RenderFrame(output, base, width);
        NextFrame(before, i, withRear, width);
        assert output[..base] == done;
        assert output[..base + width] == output[..base] + output[base..base + width];
        base := base + width;
        i := i + 1;
      }
      AllFrames(i, n, width);
      assert output[..base] == output[..];
      Clean();
    }

    method Zero(output: array<real>)
      modifies output
      ensures forall k :: 0 <= k < output.Length ==> output[k] == 0.0
    {
      var i := 0;
      while i < output.Length
        invariant i <= output.Length
        invariant forall k :: 0 <= k < i ==> output[k] == 0.0
      {
        output[i] := 0.0;
        i := i + 1;
      }
    }

    /** The last loop of `render_frames`: ended sources go. */
    method Clean()
      modifies sources
      ensures sources[..] == Model.Cleaned(old(sources[..]))
    {
      var j := 0;
      while j < sources.Length
        invariant j <= sources.Length
        invariant forall i :: 0 <= i < j ==> sources[i] == Model.Cleaned(old(sources[..]))[i]
        invariant forall i :: j <= i < sources.Length ==> sources[i] == old(sources[i])
      {
        if Model.Ended(sources[j]) {
          sources[j] := None;
        }
        j := j + 1;
      }
    }

    method Render(output: array<real>) returns (done: Result<(), MixerError>)
      requires Valid()
      modifies sources, output
      ensures output.Length % CHANNELS != 0 ==> done == Err(Model.IncompleteFrames) && Value() == old(Value()) && output[..] == old(output[..])
      ensures output.Length % CHANNELS == 0 ==>
        var whole := Model.Render(old(Value()), output.Length / CHANNELS, false);
        done == Ok(()) && Value() == whole.1 && output[..] == FlatAll(whole.0, CHANNELS)
    {
      if output.Length % CHANNELS != 0 {
        return Err(Model.IncompleteFrames);
      }
      RenderFrames(output, CHANNELS, output.Length / CHANNELS);
      done := Ok(());
    }

    method RenderSurround(output: array<real>) returns (done: Result<(), MixerError>)
      requires Valid()
      modifies sources, output
      ensures output.Length % SURROUND_CHANNELS != 0 ==> done == Err(Model.IncompleteFrames) && Value() == old(Value()) && output[..] == old(output[..])
      ensures output.Length % SURROUND_CHANNELS == 0 ==>
        var whole := Model.Render(old(Value()), output.Length / SURROUND_CHANNELS, true);
        done == Ok(()) && Value() == whole.1 && output[..] == FlatAll(whole.0, SURROUND_CHANNELS)
    {
      if output.Length % SURROUND_CHANNELS != 0 {
        return Err(Model.IncompleteFrames);
      }
      RenderFrames(output, SURROUND_CHANNELS, output.Length / SURROUND_CHANNELS);
      done := Ok(());
    }

    /** `apply_command`; `cancelled` is what the flag of an `Add` holds. */
    method ApplyCommand(command: Model.Command, cancelled: bool) returns (reply: Option<Result<nat, MixerError>>)
      requires Valid()
      modifies sources
      ensures (Value(), reply) == Model.Apply(old(Value()), command, cancelled)
    {
      match command
      case Add(id, queued) =>
        if cancelled {
          reply := Some(Err(Model.Cancelled));
        } else {
          var added := AddStreamSource(id, queued, 1.0);
          reply := Some(added);
        }
      case SetLevelsOf(slot, front, rear) =>
        var _ := SetLevels(slot, front, rear);
        reply := None;
      case Remove(slot) =>
        var _ := RemoveSource(slot);
        reply := None;
    }

    /** The first loop of `fill_output`, over the waiting commands. */
    method ApplyCommands(commands: seq<(Model.Command, bool)>) returns (replies: seq<Option<Result<nat, MixerError>>>)
      requires Valid()
      modifies sources
      ensures (Value(), replies) == ApplyAll(old(Value()), commands)
    {
      hide Model.Apply;
      replies := [];
      var c := 0;
      while c < |commands|
        invariant c <= |commands|
        invariant (Value(), replies) == ApplyAll(old(Value()), commands[..c])
      {
        assert commands[..c + 1][..c] == commands[..c];
        var reply := ApplyCommand(commands[c].0, commands[c].1);
        replies := replies + [reply];
        c := c + 1;
      }
      assert commands[..c] == commands;
    }

    /** One chunk of the output: one render into `mixed`, then the channels. */
    method FillChunk(output: array<real>, pos: nat, count: nat, channels: nat, rearLevel: real, mixed: array<real>)
      requires Valid() && 0 < count <= channels && pos + count <= output.Length
      requires mixed != output && mixed.Length == if channels >= SURROUND_CHANNELS then SURROUND_CHANNELS else CHANNELS
      modifies sources, output, mixed
      ensures var one := Model.Render(old(Value()), 1, channels >= SURROUND_CHANNELS);
        Value() == one.1 && output[pos..pos + count] == Model.Laid(one.0[0], channels, rearLevel, count)
      ensures forall k :: 0 <= k < pos || pos + count <= k < output.Length ==> output[k] == old(output[k])
    {
      hide Model.Render, Model.Laid;
      ghost var one := Model.Render(Value(), 1, channels >= SURROUND_CHANNELS);
      if channels >= SURROUND_CHANNELS {
        var _ := RenderSurround(mixed);
      } else {
        var _ := Render(mixed);
      }
      OneFlat(one.0, mixed.Length);
      assert mixed[..][0] == one.0[0].left && mixed[..][1] == one.0[0].right;
      var frame := Model.Frame(mixed[0], mixed[1], 0.0, 0.0);
      if channels >= SURROUND_CHANNELS {
        assert mixed[..][2] == one.0[0].rearLeft && mixed[..][3] == one.0[0].rearRight;
        frame := frame.(rearLeft := mixed[2] * rearLevel, rearRight := mixed[3] * rearLevel);
      }
      WriteChunk(output, pos, count, channels, frame);
      LaidAsWritten(one.0[0], frame, channels, rearLevel, count);
    }

    /** `fill_output`: the waiting commands, then one render for each chunk of
        the device's channels. */
    method FillOutput(output: array<real>, channels: nat, rearLevel: real, commands: seq<(Model.Command, bool)>)
      returns (replies: seq<Option<Result<nat, MixerError>>>)
      requires Valid() && channels > 0
      modifies sources, output
      ensures var applied := ApplyAll(old(Value()), commands);
        && replies == applied.1
        && var filled := Model.Fill(applied.0, output.Length, channels, rearLevel);
           Value() == filled.1 && output[..] == filled.0
    {
      hide Model.Render, Model.Laid, Model.Fill, ApplyAll;
      replies := ApplyCommands(commands);
      ghost var applied := Value();
      var width := if channels >= SURROUND_CHANNELS then SURROUND_CHANNELS else CHANNELS;
      var mixed := new real[width];
      var pos := 0;
      while pos < output.Length
        invariant pos <= output.Length
        invariant var rest := Model.Fill(Value(), output.Length - pos, channels, rearLevel);
          && Model.Fill(applied, output.Length, channels, rearLevel).0 == output[..pos] + rest.0
          && Model.Fill(applied, output.Length, channels, rearLevel).1 == rest.1
      {
        var count := if output.Length - pos < channels then output.Length - pos else channels;
        ghost var done := output[..pos];
        NextChunk(Value(), output.Length - pos, channels, rearLevel, done);
        FillChunk(output, pos, count, channels, rearLevel, mixed);
        assert output[..pos] == done;
        assert output[..pos + count] == output[..pos] + output[pos..pos + count];
        pos := pos + count;
      }
      assert output[..pos] == output[..];
      NoChunk(Value(), channels, rearLevel);
    }
  }

  method ClampFrame(output: array<real>, base: nat, width: nat)
    requires base + width <= output.Length
    modifies output
    ensures forall k :: base <= k < base + width ==> output[k] == Model.Clamp(old(output[k]))
    ensures forall k :: 0 <= k < base || base + width <= k < output.Length ==> output[k] == old(output[k])
  {
    var c := base;
    while c < base + width
      invariant base <= c <= base + width
      invariant forall k :: base <= k < c ==> output[k] == Model.Clamp(old(output[k]))
      invariant forall k :: 0 <= k < base || c <= k < output.Length ==> output[k] == old(output[k])
    {
      output[c] := Model.Clamp(output[c]);
      c := c + 1;
    }
  }

  /** One chunk of the output, the rear samples already levelled. */
  method WriteChunk(output: array<real>, pos: nat, count: nat, channels: nat, frame: Model.Frame)
    requires 0 < count <= channels && pos + count <= output.Length
    modifies output
    ensures output[pos..pos + count] == Model.Laid(frame, channels, 1.0, count)
    ensures forall k :: 0 <= k < pos || pos + count <= k < output.Length ==> output[k] == old(output[k])
  {
    if channels < SURROUND_CHANNELS && count == 1 {
      output[pos] := (frame.left + frame.right) * 0.5;
      return;
    }
    var i := 0;
    while i < count
      invariant i <= count
      invariant forall k :: 0 <= k < i ==> output[pos + k] == Model.Laid(frame, channels, 1.0, count)[k]
      invariant forall k :: 0 <= k < pos || pos + count <= k < output.Length ==> output[k] == old(output[k])
    {
      if i == 0 {
        output[pos] := frame.left;
      } else if i == 1 {
        output[pos + 1] := frame.right;
      } else if i == 2 && channels >= SURROUND_CHANNELS {
        output[pos + 2] := frame.rearLeft;
      } else if i == 3 && channels >= SURROUND_CHANNELS {
        output[pos + 3] := frame.rearRight;
      } else {
        output[pos + i] := 0.0;
      }
      i := i + 1;
    }
  }

  lemma NextChunk(m: Model.Mixer, length: nat, channels: nat, rearLevel: real, done: seq<real>)
    requires channels > 0 && length > 0
    ensures var count := if length < channels then length else channels;
      var one := Model.Render(m, 1, channels >= SURROUND_CHANNELS);
      && done + Model.Fill(m, length, channels, rearLevel).0
         == done + Model.Laid(one.0[0], channels, rearLevel, count) + Model.Fill(one.1, length - count, channels, rearLevel).0
      && Model.Fill(m, length, channels, rearLevel).1 == Model.Fill(one.1, length - count, channels, rearLevel).1
  {
    hide Model.Render, Model.Laid;
  }

  lemma NoChunk(m: Model.Mixer, channels: nat, rearLevel: real)
    requires channels > 0
    ensures Model.Fill(m, 0, channels, rearLevel) == ([], m)
  {
  }

  lemma LaidAsWritten(frame: Model.Frame, written: Model.Frame, channels: nat, rearLevel: real, count: nat)
    requires written.left == frame.left && written.right == frame.right
    requires channels >= SURROUND_CHANNELS ==>
      && written.rearLeft == frame.rearLeft * rearLevel
      && written.rearRight == frame.rearRight * rearLevel
    ensures Model.Laid(written, channels, 1.0, count) == Model.Laid(frame, channels, rearLevel, count)
  {
    forall i | 0 <= i < count
      ensures Model.Laid(written, channels, 1.0, count)[i] == Model.Laid(frame, channels, rearLevel, count)[i]
    {
      assert written.rearLeft * 1.0 == written.rearLeft && written.rearRight * 1.0 == written.rearRight;
    }
  }

  lemma OneFlat(frames: seq<Model.Frame>, width: nat)
    requires |frames| == 1 && (width == CHANNELS || width == SURROUND_CHANNELS)
    ensures FlatAll(frames, width) == Flat(frames[0], width)
  {
    assert FlatAll(frames[..0], width) == [];
  }

  lemma StartOfFrames(slots: Model.Slots, withRear: bool, width: nat)
    requires width == CHANNELS || width == SURROUND_CHANNELS
    ensures Model.AfterFrames(slots, 0, withRear) == slots
    ensures FlatAll(Model.Frames(slots, 0, withRear), width) == []
  {
  }

  lemma NextFrame(slots: Model.Slots, i: nat, withRear: bool, width: nat)
    requires width == CHANNELS || width == SURROUND_CHANNELS
    ensures Model.AfterFrames(slots, i + 1, withRear) == Model.AfterFrame(Model.AfterFrames(slots, i, withRear), withRear)
    ensures FlatAll(Model.Frames(slots, i + 1, withRear), width)
         == FlatAll(Model.Frames(slots, i, withRear), width) + Flat(Model.Mixed(Model.AfterFrames(slots, i, withRear), withRear), width)
  {
    hide Model.Mixed, Model.AfterFrame, Model.Frames, Model.AfterFrames;
    OneMoreFrame(slots, i, withRear);
    var frames, last := Model.Frames(slots, i, withRear), Model.Mixed(Model.AfterFrames(slots, i, withRear), withRear);
    assert (frames + [last])[..|frames|] == frames;
  }

  lemma RoomForFrame(i: nat, n: nat, width: nat)
    requires width == CHANNELS || width == SURROUND_CHANNELS
    requires i * width < n * width
    ensures i < n && i * width + width <= n * width && (i + 1) * width == i * width + width
  {
  }

  lemma AllFrames(i: nat, n: nat, width: nat)
    requires width == CHANNELS || width == SURROUND_CHANNELS
    requires i <= n && i * width >= n * width
    ensures i == n
  {
  }
}
