/** The mixer of `src/backend/src/audio_mixer.rs` and what
    `src/backend/src/cpal_audio_engine.rs` makes of its frames. Samples and
    gains are reals. */
module MixerModel {
  import opened Wrappers

  const CHANNELS: nat := 2
  const SURROUND_CHANNELS: nat := 4
  const MAX_SOURCES: nat := 8

  /** The gains of a source on the front and the rear speakers. */
  datatype Levels = Levels(gain: real, target: real, step: real,
                           rear: real, rearTarget: real, rearStep: real, remaining: nat)

  /** A ready buffer, or the ring a decoder fills: `queued` is what it holds
      and `id` tells the rings apart. */
  datatype Feed = Samples(samples: seq<real>, position: nat) | Stream(id: nat, queued: seq<real>)

  datatype Source = Source(feed: Feed, levels: Levels)

  type Slots = seq<Option<Source>>

  datatype Mixer = Mixer(slots: Slots, fadeFrames: nat)

  datatype MixerError = BadSamples | BadGain | LimitReached | UnknownSource | IncompleteFrames | Cancelled

  datatype Frame = Frame(left: real, right: real, rearLeft: real, rearRight: real)

  // ------------------------------------------------------------------- gains

  function Constant(gain: real): Levels {
    Levels(gain, gain, 0.0, gain, gain, 0.0, 0)
  }

  /** `advance_gain`. */
  function Advance(l: Levels): Levels {
    if l.remaining == 0 then l
    else if l.remaining == 1 then l.(gain := l.target, rear := l.rearTarget, remaining := 0)
    else l.(gain := l.gain + l.step, rear := l.rear + l.rearStep, remaining := l.remaining - 1)
  }

  function Retarget(l: Levels, front: real, rear: real, fadeFrames: nat): Levels
    requires fadeFrames > 0
  {
    l.(target := front, rearTarget := rear, remaining := fadeFrames,
       step := (front - l.gain) / fadeFrames as real, rearStep := (rear - l.rear) / fadeFrames as real)
  }

  predicate Muted(l: Levels, withRear: bool) {
    l.remaining == 0 && l.gain == 0.0 && (!withRear || l.rear == 0.0)
  }

  // ------------------------------------------------------------- one frame

  /** The next two samples; a ready buffer that has no two left gives none, an
      empty ring gives silence and half a frame plays on both sides. */
  function Pair(feed: Feed): Option<(real, real)> {
    if feed.Samples? then
      if feed.position + CHANNELS > |feed.samples| then None
      else Some((feed.samples[feed.position], feed.samples[feed.position + 1]))
    else if |feed.queued| == 0 then Some((0.0, 0.0))
    else if |feed.queued| == 1 then Some((feed.queued[0], feed.queued[0]))
    else Some((feed.queued[0], feed.queued[1]))
  }

  function Pulled(feed: Feed): Feed {
    if feed.Samples? then
      if feed.position + CHANNELS > |feed.samples| then feed else feed.(position := feed.position + CHANNELS)
    else feed.(queued := feed.queued[if |feed.queued| < CHANNELS then |feed.queued| else CHANNELS..])
  }

  const SILENCE: Frame := Frame(0.0, 0.0, 0.0, 0.0)

  /** What one slot adds to the frame. */
  function Sound(slot: Option<Source>, withRear: bool): Frame {
    if slot.None? then SILENCE
    else
      var levels, pair := Advance(slot.value.levels), Pair(slot.value.feed);
      if Muted(levels, withRear) || pair.None? then SILENCE
      else Frame(pair.value.0 * levels.gain, pair.value.1 * levels.gain,
                 if withRear then pair.value.0 * levels.rear else 0.0,
                 if withRear then pair.value.1 * levels.rear else 0.0)
  }

  /** A slot after the frame: a muted source keeps its samples. */
  function Played(slot: Option<Source>, withRear: bool): Option<Source> {
    if slot.None? then None
    else
      var levels := Advance(slot.value.levels);
      Some(Source(if Muted(levels, withRear) then slot.value.feed else Pulled(slot.value.feed), levels))
  }

  function Plus(a: Frame, b: Frame): Frame {
    Frame(a.left + b.left, a.right + b.right, a.rearLeft + b.rearLeft, a.rearRight + b.rearRight)
  }

  function Sum(slots: Slots, withRear: bool): Frame
    decreases |slots|
  {
    if slots == [] then SILENCE else Plus(Sum(slots[..|slots| - 1], withRear), Sound(slots[|slots| - 1], withRear))
  }

  function Clamp(x: real): (r: real)
    ensures -1.0 <= r <= 1.0 && (-1.0 <= x <= 1.0 ==> r == x)
  {
    if x < -1.0 then -1.0 else if x > 1.0 then 1.0 else x
  }

  function Mixed(slots: Slots, withRear: bool): Frame {
    var sum := Sum(slots, withRear);
    Frame(Clamp(sum.left), Clamp(sum.right), Clamp(sum.rearLeft), Clamp(sum.rearRight))
  }

  function AfterFrame(slots: Slots, withRear: bool): Slots {
    seq(|slots|, i requires 0 <= i < |slots| => Played(slots[i], withRear))
  }

  // ----------------------------------------------------------------- rendering

  function Frames(slots: Slots, n: nat, withRear: bool): (r: seq<Frame>)
    ensures |r| == n
    decreases n
  {
    if n == 0 then [] else [Mixed(slots, withRear)] + Frames(AfterFrame(slots, withRear), n - 1, withRear)
  }

  function AfterFrames(slots: Slots, n: nat, withRear: bool): Slots
    decreases n
  {
    if n == 0 then slots else AfterFrames(AfterFrame(slots, withRear), n - 1, withRear)
  }

  /** A ready buffer played to its end. */
  predicate Ended(slot: Option<Source>) {
    slot.Some? && slot.value.feed.Samples? && slot.value.feed.position >= |slot.value.feed.samples|
  }

  function Cleaned(slots: Slots): Slots {
    seq(|slots|, i requires 0 <= i < |slots| => if Ended(slots[i]) then None else slots[i])
  }

  /** `render_frames` over `n` frames: ended sources go only at its end. */
  function Render(m: Mixer, n: nat, withRear: bool): (r: (seq<Frame>, Mixer))
    ensures |r.0| == n
  {
    (Frames(m.slots, n, withRear), m.(slots := Cleaned(AfterFrames(m.slots, n, withRear))))
  }

  /** One call for each frame, as `fill_output` makes them. */
  function RenderEach(m: Mixer, n: nat, withRear: bool): (seq<Frame>, Mixer)
    decreases n
  {
    if n == 0 then ([], m)
    else
      var first := Render(m, 1, withRear);
      var rest := RenderEach(first.1, n - 1, withRear);
      (first.0 + rest.0, rest.1)
  }

  // --------------------------------------------------------------- operations

  function NewMixer(sampleRate: nat, fadeMilliseconds: nat): Mixer {
    var frames := sampleRate * fadeMilliseconds / 1000;
    Mixer(seq(MAX_SOURCES, _ => None), if frames < 1 then 1 else frames)
  }

  function FirstFree(slots: Slots): (r: Option<nat>)
    ensures r.Some? ==> r.value < |slots| && slots[r.value].None? && forall i :: 0 <= i < r.value ==> slots[i].Some?
    ensures r.None? ==> forall i :: 0 <= i < |slots| ==> slots[i].Some?
    decreases |slots|
  {
    if slots == [] then None
    else if slots[0].None? then Some(0)
    else
      var rest := FirstFree(slots[1..]);
      if rest.None? then None else Some(rest.value + 1)
  }

  predicate Unit(x: real) { 0.0 <= x <= 1.0 }

  function AddFeed(m: Mixer, feed: Feed, gain: real): (Mixer, Result<nat, MixerError>) {
    if !Unit(gain) then (m, Err(BadGain))
    else
      var free := FirstFree(m.slots);
      if free.None? then (m, Err(LimitReached))
      else (m.(slots := m.slots[free.value := Some(Source(feed, Constant(gain)))]), Ok(free.value))
  }

  function AddSource(m: Mixer, samples: seq<real>, gain: real): (Mixer, Result<nat, MixerError>) {
    if samples == [] || |samples| % CHANNELS != 0 then (m, Err(BadSamples)) else AddFeed(m, Samples(samples, 0), gain)
  }

  function AddStreamSource(m: Mixer, id: nat, queued: seq<real>, gain: real): (Mixer, Result<nat, MixerError>) {
    AddFeed(m, Stream(id, queued), gain)
  }

  function SetLevels(m: Mixer, slot: nat, front: real, rear: real): (Mixer, Result<(), MixerError>)
    requires m.fadeFrames > 0
  {
    if !Unit(front) || !Unit(rear) then (m, Err(BadGain))
    else if slot >= |m.slots| || m.slots[slot].None? then (m, Err(UnknownSource))
    else
      var source := m.slots[slot].value;
      (m.(slots := m.slots[slot := Some(source.(levels := Retarget(source.levels, front, rear, m.fadeFrames)))]), Ok(()))
  }

  function RemoveSource(m: Mixer, slot: nat): (Mixer, Result<(), MixerError>) {
    if slot >= |m.slots| || m.slots[slot].None? then (m, Err(UnknownSource))
    else (m.(slots := m.slots[slot := None]), Ok(()))
  }

  // ------------------------------------------------------------- the engine

  /** A command of the engine's queue; `Add` carries the ring of `id`. */
  datatype Command = Add(id: nat, queued: seq<real>) | SetLevelsOf(slot: nat, front: real, rear: real) | Remove(slot: nat)

  /** `apply_command`: the mixer after it, and the answer to an `Add`. */
  function Apply(m: Mixer, command: Command, cancelled: bool): (Mixer, Option<Result<nat, MixerError>>)
    requires m.fadeFrames > 0
  {
    match command
    case Add(id, queued) =>
      if cancelled then (m, Some(Err(Cancelled)))
      else
        var added := AddStreamSource(m, id, queued, 1.0);
        (added.0, Some(added.1))
    case SetLevelsOf(slot, front, rear) => (SetLevels(m, slot, front, rear).0, None)
    case Remove(slot) => (RemoveSource(m, slot).0, None)
  }

  /** One frame on `count` of the device's channels: the last chunk of an
      output may be short. */
  function Laid(frame: Frame, channels: nat, rearLevel: real, count: nat): (r: seq<real>)
    ensures |r| == count
  {
    if channels >= SURROUND_CHANNELS then
      seq(count, i => if i == 0 then frame.left else if i == 1 then frame.right
                      else if i == 2 then frame.rearLeft * rearLevel else if i == 3 then frame.rearRight * rearLevel else 0.0)
    else if count == 1 then [(frame.left + frame.right) * 0.5]
    else seq(count, i => if i == 0 then frame.left else if i == 1 then frame.right else 0.0)
  }

  /** `fill_output` after its commands: one render for each chunk. */
  function Fill(m: Mixer, length: nat, channels: nat, rearLevel: real): (seq<real>, Mixer)
    requires channels > 0
    decreases length
  {
    if length == 0 then ([], m)
    else
      var count := if length < channels then length else channels;
      var one := Render(m, 1, channels >= SURROUND_CHANNELS);
      var rest := Fill(one.1, length - count, channels, rearLevel);
      (Laid(one.0[0], channels, rearLevel, count) + rest.0, rest.1)
  }
}
