/** The decoder thread of `src/backend/src/audio_source.rs`: PCM bytes cut into
    frames and pushed through a bounded ring. */
module PcmModel {
  import opened Wrappers
  import Mixer = MixerModel

  /** What one read of FFmpeg's output gives; no bytes means its end. */
  datatype Read = Bytes(bytes: seq<Byte>) | ReadError

  /** Everything read before the end or the error. */
  function BytesOf(input: seq<Read>): seq<Byte> {
    if input == [] || input[0].ReadError? || input[0].bytes == [] then [] else input[0].bytes + BytesOf(input[1..])
  }

  predicate Fails(input: seq<Read>) {
    input != [] && (input[0].ReadError? || (input[0].bytes != [] && Fails(input[1..])))
  }

  /** `i16::from_le_bytes` over `i16::MAX`. */
  function ToSample(low: Byte, high: Byte): real {
    var unsigned := low + 256 * high;
    (if unsigned < 0x8000 then unsigned else unsigned - 0x1_0000) as real / 32767.0
  }

  function Decoded(bytes: seq<Byte>): (r: seq<real>)
    ensures |r| == |bytes| / 2
    decreases |bytes|
  {
    if |bytes| < 2 then [] else [ToSample(bytes[0], bytes[1])] + Decoded(bytes[2..])
  }

  /** The longest part of `n` bytes that is whole frames. */
  function Whole(n: nat, frameBytes: nat): (r: nat)
    requires frameBytes > 0
    ensures r <= n < r + frameBytes
  {
    n / frameBytes * frameBytes
  }

  /** The samples of the longest whole-frame prefix. */
  function SamplesOf(bytes: seq<Byte>, channels: nat): seq<real>
    requires channels > 0
  {
    Decoded(bytes[..Whole(|bytes|, channels * 2)])
  }

  /** What the other threads do while the decoder waits or works: the output
      takes single samples, then whole frames, and a stop may be requested. */
  datatype Tick = Tick(singles: nat, frames: nat, stop: bool)

  predicate FramesOnly(schedule: seq<Tick>) {
    forall i :: 0 <= i < |schedule| ==> schedule[i].singles == 0
  }

  /** The output takes something whenever the decoder waits. */
  predicate KeepsTaking(schedule: seq<Tick>) {
    forall i :: 0 <= i < |schedule| ==> schedule[i].frames > 0
  }

  predicate NeverStops(schedule: seq<Tick>) {
    forall i :: 0 <= i < |schedule| ==> !schedule[i].stop
  }

  /** Time enough for a track: a tick for each read, and two for each sample. */
  function Ticks(input: seq<Read>, channels: nat): nat
    requires channels > 0
  {
    |input| + 2 * |SamplesOf(BytesOf(input), channels)|
  }

  /** Samples two by two. */
  function Pairs(samples: seq<real>): (r: seq<(real, real)>)
    ensures |r| == |samples| / 2
  {
    if |samples| < 2 then [] else [(samples[0], samples[1])] + Pairs(samples[2..])
  }

  // -------------------------------------------------------------------- laws

  lemma {:induction false} DecodedJoins(a: seq<Byte>, b: seq<Byte>)
    requires |a| % 2 == 0
    ensures Decoded(a + b) == Decoded(a) + Decoded(b)
    decreases |a|
  {
    if a == [] {
      assert a + b == b;
    } else {
      assert (a + b)[2..] == a[2..] + b;
      DecodedJoins(a[2..], b);
    }
  }

  lemma WholeOfMultiple(k: nat, b: nat, frameBytes: nat)
    requires frameBytes > 0
    ensures Whole(k * frameBytes + b, frameBytes) == k * frameBytes + Whole(b, frameBytes)
  {
    var q := b / frameBytes;
    var r := b % frameBytes;
    assert k * frameBytes + b == (k + q) * frameBytes + r;
    QuotientIs(k * frameBytes + b, k + q, r, frameBytes);
    assert (k + q) * frameBytes == k * frameBytes + q * frameBytes;
  }

  lemma QuotientIs(n: nat, q: nat, r: nat, d: nat)
    requires d > 0 && r < d && n == q * d + r
    ensures n / d == q
  {
    var p, s := n / d, n % d;
    assert n == p * d + s && 0 <= s < d;
    if p < q {
      MoreIsMore(p + 1, q, d);
    } else if p > q {
      MoreIsMore(q + 1, p, d);
    }
  }

  lemma MoreIsMore(a: nat, b: nat, d: nat)
    requires a <= b
    ensures a * d <= b * d
  {
  }

  /** The sample of the two bytes of a 16-bit value, the low one first, is that
      value on a scale of 32767. */
  lemma SampleIsLittleEndian(value: int)
    requires -32768 <= value <= 32767
    ensures var word: int := if value < 0 then value + 65536 else value;
      ToSample(word % 256, word / 256) * 32767.0 == value as real
  {
    var word: int := if value < 0 then value + 65536 else value;
    assert word % 256 + 256 * (word / 256) == word;
  }

  /** The k-th sample is made of the bytes 2k and 2k+1. */
  lemma {:induction false} DecodedAt(bytes: seq<Byte>, k: nat)
    requires 2 * k + 1 < |bytes|
    ensures Decoded(bytes)[k] == ToSample(bytes[2 * k], bytes[2 * k + 1])
    decreases k
  {
    if k > 0 {
      DecodedAt(bytes[2..], k - 1);
    }
  }

  /** All whole frames of what was read, and no more. */
  lemma {:induction false} SamplesAreWholeFrames(bytes: seq<Byte>, channels: nat)
    requires channels > 0
    ensures |SamplesOf(bytes, channels)| == |bytes| / (2 * channels) * channels
    ensures forall k :: 0 <= k < |SamplesOf(bytes, channels)| ==>
      2 * k + 1 < |bytes| && SamplesOf(bytes, channels)[k] == ToSample(bytes[2 * k], bytes[2 * k + 1])
  {
    hide Decoded, ToSample;
    var whole, q := Whole(|bytes|, channels * 2), |bytes| / (channels * 2);
    assert whole == 2 * (q * channels);
    forall k: nat | k < |SamplesOf(bytes, channels)|
      ensures 2 * k + 1 < |bytes| && SamplesOf(bytes, channels)[k] == ToSample(bytes[2 * k], bytes[2 * k + 1])
    {
      DecodedAt(bytes[..whole], k);
    }
  }

  predicate Good(read: Read) { read.Bytes? && read.bytes != [] }

  /** Reading goes on as long as bytes come, and joins them in order. */
  lemma {:induction false} ReadsJoin(good: seq<Read>, rest: seq<Read>)
    requires forall i :: 0 <= i < |good| ==> Good(good[i])
    ensures BytesOf(good + rest) == BytesOf(good) + BytesOf(rest) && (Fails(good + rest) <==> Fails(rest))
    decreases |good|
  {
    if good == [] {
      assert good + rest == rest;
    } else {
      assert (good + rest)[1..] == good[1..] + rest;
      ReadsJoin(good[1..], rest);
    }
  }

  /** It ends with the first read that gives none, or an error. */
  lemma OneRead(read: Read, rest: seq<Read>)
    ensures Good(read) ==> BytesOf([read]) == read.bytes && !Fails([read])
    ensures !Good(read) ==> BytesOf([read] + rest) == [] && (Fails([read] + rest) <==> read.ReadError?)
    ensures BytesOf([]) == [] && !Fails([])
  {
    if Good(read) {
      assert [read][1..] == [];
      assert BytesOf([read]) == read.bytes + BytesOf([]);
    } else {
      assert ([read] + rest)[0] == read;
    }
  }

  /** Cutting off what is whole and keeping the rest for the next read loses
      nothing: the samples do not depend on where the reads fall. */
  lemma {:induction false} CutAnywhere(a: seq<Byte>, b: seq<Byte>, channels: nat)
    requires channels > 0
    ensures var whole := Whole(|a|, channels * 2);
      SamplesOf(a + b, channels) == SamplesOf(a, channels) + SamplesOf(a[whole..] + b, channels)
  {
    hide Whole, Decoded;
    var fb := channels * 2;
    var whole := Whole(|a|, fb);
    var rest := a[whole..] + b;
    WholeIsEven(|a|, channels);
    WholeIsEven(|rest|, channels);
    WholeShifts(|a|, |a| + |b|, fb);
    var tail := Whole(|rest|, fb);
    assert (a + b)[..whole + tail] == a[..whole] + rest[..tail];
    DecodedJoins(a[..whole], rest[..tail]);
  }

  lemma WholeIsEven(n: nat, channels: nat)
    requires channels > 0
    ensures Whole(n, channels * 2) % 2 == 0
  {
    var q := n / (channels * 2);
    assert q * (channels * 2) == 2 * (q * channels);
  }

  lemma WholeShifts(a: nat, n: nat, frameBytes: nat)
    requires frameBytes > 0 && a <= n
    ensures Whole(n, frameBytes) == Whole(a, frameBytes) + Whole(n - Whole(a, frameBytes), frameBytes)
  {
    var k := a / frameBytes;
    assert Whole(a, frameBytes) == k * frameBytes;
    WholeOfMultiple(k, n - k * frameBytes, frameBytes);
  }

  lemma {:induction false} PairsJoin(a: seq<real>, x: real, y: real)
    requires |a| % 2 == 0
    ensures Pairs(a + [x, y]) == Pairs(a) + [(x, y)]
    decreases |a|
  {
    if a == [] {
      assert a + [x, y] == [x, y];
      assert Pairs([x, y][2..]) == [];
    } else {
      assert (a + [x, y])[2..] == a[2..] + [x, y];
      PairsJoin(a[2..], x, y);
    }
  }

  /** The k-th pair is made of the samples 2k and 2k+1. */
  lemma {:induction false} PairAt(samples: seq<real>, k: nat)
    requires 2 * k + 1 < |samples|
    ensures Pairs(samples)[k] == (samples[2 * k], samples[2 * k + 1])
    decreases k
  {
    if k > 0 {
      PairAt(samples[2..], k - 1);
    }
  }

  /** Frames heard so far are pairs of what was taken: with that, each is made
      of the samples 2k and 2k+1 of the track. */
  lemma {:induction false} LeftStaysLeft(samples: seq<real>, taken: nat, heard: seq<(real, real)>, k: nat)
    requires taken <= |samples| && heard == Pairs(samples[..taken]) && k < |heard|
    ensures heard[k] == (samples[2 * k], samples[2 * k + 1])
  {
    PairAt(samples[..taken], k);
  }

  // -------------------------------------------------- the loop of the decoder

  lemma StartOfReads(input: seq<Read>, channels: nat)
    requires channels > 0
    ensures input[0..] == input && SamplesOf([] + BytesOf(input[0..]), channels) == SamplesOf(BytesOf(input), channels)
  {
    assert [] + BytesOf(input) == BytesOf(input);
  }

  /** The end or an error with less than a frame pending. */
  lemma NothingLeft(pending: seq<Byte>, input: seq<Read>, channels: nat)
    requires channels > 0 && |pending| < channels * 2
    requires input == [] || input[0].ReadError? || input[0].bytes == []
    ensures SamplesOf(pending + BytesOf(input), channels) == []
    ensures Fails(input) <==> input != [] && input[0].ReadError?
  {
    assert pending + BytesOf(input) == pending;
    WholeOfLess(|pending|, channels * 2);
  }

  lemma WholeOfLess(n: nat, frameBytes: nat)
    requires n < frameBytes
    ensures Whole(n, frameBytes) == 0
  {
    QuotientIs(n, 0, n, frameBytes);
  }

  lemma NextRead(pending: seq<Byte>, input: seq<Read>, channels: nat)
    requires channels > 0 && input != [] && input[0].Bytes? && input[0].bytes != []
    ensures var all := pending + input[0].bytes; var whole := Whole(|all|, channels * 2);
      SamplesOf(pending + BytesOf(input), channels) == Decoded(all[..whole]) + SamplesOf(all[whole..] + BytesOf(input[1..]), channels)
    ensures Fails(input) == Fails(input[1..])
  {
    hide Whole, SamplesOf;
    var all := pending + input[0].bytes;
    assert pending + BytesOf(input) == all + BytesOf(input[1..]);
    CutAnywhere(all, BytesOf(input[1..]), channels);
    SamplesAre(all, channels);
  }

  lemma SamplesAre(bytes: seq<Byte>, channels: nat)
    requires channels > 0
    ensures SamplesOf(bytes, channels) == Decoded(bytes[..Whole(|bytes|, channels * 2)])
  {
  }

  /** An even number of channels gives an even number of samples. */
  lemma FrameSamplesEven(n: nat, channels: nat)
    requires channels > 0
    ensures Whole(n, channels * 2) % 2 == 0
    ensures channels % 2 == 0 ==> Whole(n, channels * 2) / 2 % 2 == 0
  {
    WholeIsEven(n, channels);
    var q := n / (channels * 2);
    if channels % 2 == 0 {
      var half := channels / 2;
      assert channels == 2 * half;
      assert q * (channels * 2) == 4 * (q * half);
    }
  }

  /** `n` more of what is still to come. */
  lemma TakeMore(all: seq<real>, count: nat, decoded: seq<real>, n: nat, rest: seq<real>)
    requires count <= |all| && all[count..] == decoded + rest && n <= |decoded|
    ensures count + n <= |all| && all[..count + n] == all[..count] + decoded[..n]
    ensures n == |decoded| ==> all[count + n..] == rest
  {
    assert all[count..count + n] == all[count..][..n] == (decoded + rest)[..n];
    assert all[..count + n] == all[..count] + all[count..count + n];
    assert all[count + |decoded|..] == all[count..][|decoded|..] == (decoded + rest)[|decoded|..];
  }

  lemma PushedMore(before: seq<real>, decoded: seq<real>, n: nat, more: nat)
    requires n + more <= |decoded|
    ensures before + decoded[..n] + decoded[n..][..more] == before + decoded[..n + more]
    ensures n % 2 == 0 && |decoded| % 2 == 0 ==> |decoded[n..]| % 2 == 0
    ensures n % 2 == 0 && more % 2 == 0 ==> (n + more) % 2 == 0
  {
  }

  // ------------------------------------------------- two threads on one ring

  /** What one decoding gives: whole frames of two samples. */
  type Chunk = samples: seq<real> | |samples| % 2 == 0 witness []

  /** The steps of the two sides, in any order. The decoder has a chunk, looks
      how much room there is, and stores that much; the output pops twice for
      each frame. */
  datatype Event = Offer(chunk: Chunk) | Look | Store | First | Second

  /** `seen` is the room a `push_slice` has found and not yet used, `half` what
      the first pop of a frame gave, `heard` the frames that got any sample. */
  datatype Ring = Ring(
    capacity: nat, pushed: seq<real>, taken: nat, rest: seq<real>,
    seen: Option<nat>, half: Option<Option<real>>, heard: seq<(real, real)>)

  /** The first pop has found a sample. */
  predicate HasLeft(r: Ring) { r.half.Some? && r.half.value.Some? }

  predicate Fits(r: Ring) {
    && r.taken <= |r.pushed| <= r.taken + r.capacity
    && (r.seen.Some? ==> r.seen.value <= |r.rest| && |r.pushed| + r.seen.value <= r.taken + r.capacity)
    && (HasLeft(r) ==> r.taken > 0 && r.half.value.value == r.pushed[r.taken - 1])
  }

  /** The sample at which the frame under way begins, else the next one. */
  function Begin(r: Ring): (n: nat)
    requires Fits(r)
  {
    if HasLeft(r) then r.taken - 1 else r.taken
  }

  function Left(r: Ring): (n: nat)
    requires Fits(r)
  {
    |r.pushed| - r.taken
  }

  function Room(r: Ring): (n: nat)
    requires Fits(r)
  {
    r.capacity - Left(r)
  }

  /** `try_pop`. */
  function Pop(r: Ring): (p: (Ring, Option<real>))
    requires Fits(r)
  {
    if Left(r) == 0 then (r, None) else (r.(taken := r.taken + 1), Some(r.pushed[r.taken]))
  }

  /** What the mixer makes of its two pops. */
  function FrameOf(first: Option<real>, second: Option<real>): (f: (real, real)) {
    var left := if first.Some? then first.value else 0.0;
    (left, if second.Some? then second.value else left)
  }

  /** A step that cannot come now changes nothing. */
  function Next(r: Ring, event: Event): (n: Ring)
    requires Fits(r)
    ensures Fits(n) && n.capacity == r.capacity
  {
    match event
    case Offer(chunk) => if r.rest == [] && r.seen.None? then r.(rest := chunk) else r
    case Look =>
      if r.rest == [] || r.seen.Some? then r
      else r.(seen := Some(if |r.rest| < Room(r) then |r.rest| else Room(r)))
    case Store =>
      if r.seen.None? then r
      else r.(pushed := r.pushed + r.rest[..r.seen.value], rest := r.rest[r.seen.value..], seen := None)
    case First => if r.half.Some? then r else var (p, sample) := Pop(r); p.(half := Some(sample))
    case Second =>
      if r.half.None? then r
      else
        var (p, sample) := Pop(r);
        p.(half := None,
           heard := if r.half.value.None? && sample.None? then r.heard else r.heard + [FrameOf(r.half.value, sample)])
  }

  /** The ring of `frames` frames after a run. */
  function After(frames: nat, events: seq<Event>): (r: Ring)
    ensures Fits(r) && r.capacity == 2 * frames
    decreases |events|
  {
    if events == [] then Ring(2 * frames, [], 0, [], None, None, [])
    else Next(After(frames, events[..|events| - 1]), events[|events| - 1])
  }

  /** A frame ends that got exactly one sample. */
  predicate EndsLone(r: Ring, event: Event)
    requires Fits(r)
  {
    event.Second? && r.half.Some? && (r.half.value.Some? <==> Left(r) == 0)
  }

  /** How many did so far. */
  function Lone(frames: nat, events: seq<Event>): nat
    decreases |events|
  {
    if events == [] then 0
    else
      var before, last := events[..|events| - 1], events[|events| - 1];
      Lone(frames, before) + if EndsLone(After(frames, before), last) then 1 else 0
  }

  lemma OneEventMore(frames: nat, events: seq<Event>, event: Event)
    ensures After(frames, events + [event]) == Next(After(frames, events), event)
    ensures Lone(frames, events + [event]) == Lone(frames, events) + if EndsLone(After(frames, events), event) then 1 else 0
  {
    assert (events + [event])[..|events|] == events;
  }

  /** With nothing in between, the two pops are a frame of the mixer. */
  lemma TogetherIsFrame(r: Ring)
    requires Fits(r) && r.half.None?
    ensures var n := Next(Next(r, First), Second); var queue := Mixer.Stream(0, r.pushed[r.taken..]);
      && Mixer.Pulled(queue).queued == n.pushed[n.taken..]
      && (Left(r) > 0 ==> n.heard == r.heard + [Mixer.Pair(queue).value])
  {
    var queue := r.pushed[r.taken..];
    if Left(r) > 0 {
      assert queue[0] == r.pushed[r.taken];
      if Left(r) > 1 {
        assert queue[1] == r.pushed[r.taken + 1];
        assert queue[2..] == r.pushed[r.taken + 2..];
      }
    }
  }

  /** Of every run: a frame heard is made of two samples, but for the lone
      ones. */
  lemma {:induction false} SamplesAddUp(frames: nat, events: seq<Event>)
    ensures var r := After(frames, events); 2 * |r.heard| == Begin(r) + Lone(frames, events)
    decreases |events|
  {
    hide Next;
    if events != [] {
      var before, last := events[..|events| - 1], events[|events| - 1];
      SamplesAddUp(frames, before);
      FrameAddsUp(After(frames, before), last);
    }
  }

  lemma FrameAddsUp(r: Ring, event: Event)
    requires Fits(r)
    ensures var n := Next(r, event);
      2 * |n.heard| - Begin(n) == 2 * |r.heard| - Begin(r) + if EndsLone(r, event) then 1 else 0
  {
    hide FrameOf;
  }

  /** Left and right are swapped exactly if an odd number of frames got exactly
      one sample. */
  lemma {:induction false} SwappedExactly(frames: nat, events: seq<Event>)
    ensures Begin(After(frames, events)) % 2 == 1 <==> Lone(frames, events) % 2 == 1
  {
    hide After, Lone;
    SamplesAddUp(frames, events);
  }

  /** The next frame begins at the sample 2h - l, after h frames heard of which
      l got one sample only, and carries it and the one after it; alone it
      goes to both sides, or to the right if the first pop came too early. */
  lemma {:induction false} FrameCarries(frames: nat, events: seq<Event>)
    requires After(frames, events).half.Some?
    ensures var r := After(frames, events); var start := 2 * |r.heard| - Lone(frames, events);
      && 0 <= start == Begin(r)
      && var heard := After(frames, events + [Second]).heard;
         if HasLeft(r) && Left(r) > 0 then start + 1 < |r.pushed| && heard == r.heard + [(r.pushed[start], r.pushed[start + 1])]
         else if HasLeft(r) then start < |r.pushed| && heard == r.heard + [(r.pushed[start], r.pushed[start])]
         else if Left(r) > 0 then start < |r.pushed| && heard == r.heard + [(0.0, r.pushed[start])]
         else heard == r.heard
  {
    hide After, Lone;
    SamplesAddUp(frames, events);
    OneEventMore(frames, events, Second);
  }

  /** What is heard is the track two by two exactly if no frame got exactly one
      sample. */
  lemma {:induction false} TrackIsHeardExactly(frames: nat, events: seq<Event>)
    ensures var r := After(frames, events); r.heard == Pairs(r.pushed[..Begin(r)]) <==> Lone(frames, events) == 0
  {
    hide After, Lone, Pairs;
    SamplesAddUp(frames, events);
    if Lone(frames, events) == 0 {
      WholeFramesAreTrack(frames, events);
    }
  }

  lemma {:induction false} WholeFramesAreTrack(frames: nat, events: seq<Event>)
    requires Lone(frames, events) == 0
    ensures var r := After(frames, events); r.heard == Pairs(r.pushed[..Begin(r)])
    decreases |events|
  {
    hide Pairs, FrameOf;
    if events == [] {
      NoPairs();
    } else {
      var before, last := events[..|events| - 1], events[|events| - 1];
      WholeFramesAreTrack(frames, before);
      SamplesAddUp(frames, before);
      HeardIsNext(After(frames, before), last);
    }
  }

  lemma NoPairs()
    ensures Pairs([]) == []
  {
  }

  lemma HeardIsNext(r: Ring, event: Event)
    requires Fits(r) && !EndsLone(r, event)
    requires Begin(r) % 2 == 0 && r.heard == Pairs(r.pushed[..Begin(r)])
    ensures var n := Next(r, event); n.heard == Pairs(n.pushed[..Begin(n)])
  {
    hide Pairs;
    var n, start := Next(r, event), Begin(r);
    assert n.pushed[..start] == r.pushed[..start];
    if event.Second? && HasLeft(r) {
      assert n.pushed[..start + 2] == r.pushed[..start] + [r.pushed[start], r.pushed[start + 1]];
      PairsJoin(r.pushed[..start], r.pushed[start], r.pushed[start + 1]);
    }
  }

  // ------------------------------------------------------- what goes wrong

  /** A frame is torn: the decoder looks between its two pops and finds less
      room than it needs, or its first pop comes too early and its second does
      not. */
  predicate Tears(r: Ring, event: Event)
    requires Fits(r)
  {
    || (event.Look? && r.seen.None? && HasLeft(r) && Room(r) < |r.rest|)
    || (event.Second? && r.half == Some(None) && Left(r) > 0)
  }

  predicate Torn(frames: nat, events: seq<Event>)
    decreases |events|
  {
    events != [] &&
    var before, last := events[..|events| - 1], events[|events| - 1];
    Torn(frames, before) || Tears(After(frames, before), last)
  }

  /** Whole frames have been pushed and are about to be, and whole ones heard. */
  predicate InStep(frames: nat, events: seq<Event>) {
    var r := After(frames, events);
    Lone(frames, events) == 0 && |r.pushed| % 2 == 0 && (r.seen.Some? ==> r.seen.value % 2 == 0)
  }

  lemma {:induction false} OfferedIsEven(frames: nat, events: seq<Event>)
    ensures (|After(frames, events).pushed| + |After(frames, events).rest|) % 2 == 0
    decreases |events|
  {
    hide Next;
    if events != [] {
      var before, last := events[..|events| - 1], events[|events| - 1];
      OfferedIsEven(frames, before);
      OfferKeepsEven(After(frames, before), last);
    }
  }

  lemma OfferKeepsEven(r: Ring, event: Event)
    requires Fits(r) && (|r.pushed| + |r.rest|) % 2 == 0
    ensures (|Next(r, event).pushed| + |Next(r, event).rest|) % 2 == 0
  {
    hide FrameOf;
  }

  /** From there, exactly a torn frame gets the two sides out of step. */
  lemma {:induction false} NextInStep(frames: nat, events: seq<Event>, event: Event)
    requires InStep(frames, events)
    ensures InStep(frames, events + [event]) <==> !Tears(After(frames, events), event)
  {
    hide After, Lone, FrameOf;
    SamplesAddUp(frames, events);
    OfferedIsEven(frames, events);
    OneEventMore(frames, events, event);
  }

  /** Over all runs on a ring of whole frames: the two sides get out of step at
      some moment exactly if a frame is torn. */
  lemma {:induction false} TornExactly(frames: nat, events: seq<Event>)
    ensures Torn(frames, events) <==> exists n :: 0 <= n <= |events| && !InStep(frames, events[..n])
    decreases |events|
  {
    hide After, InStep, Tears;
    if events == [] {
      StartsInStep(frames);
      assert forall n :: 0 <= n <= |events| ==> events[..n] == [];
    } else {
      var before, last := events[..|events| - 1], events[|events| - 1];
      TornExactly(frames, before);
      assert before + [last] == events == events[..|events|];
      assert before == before[..|before|];
      assert forall n :: 0 <= n <= |before| ==> before[..n] == events[..n];
      if InStep(frames, before) {
        NextInStep(frames, before, last);
      }
    }
  }

  lemma StartsInStep(frames: nat)
    ensures InStep(frames, [])
  {
  }

  /** So without a torn frame the track is heard two by two, however pops and
      pushes fall. */
  lemma {:induction false} UntornIsTrack(frames: nat, events: seq<Event>)
    requires !Torn(frames, events)
    ensures var r := After(frames, events); r.heard == Pairs(r.pushed[..Begin(r)])
  {
    hide After, Torn, Pairs, Lone;
    TornExactly(frames, events);
    assert events[..|events|] == events;
    assert InStep(frames, events);
    TrackIsHeardExactly(frames, events);
  }

  /** A look between two pops at a full ring of two frames: one sample more is
      pushed, and the output meets it alone. */
  function OneMoreSample(c: Chunk): seq<Event> {
    [] + [Offer(c)] + [Look] + [Store] + [First] + [Look] + [Store] + [Second] + [First] + [Second] + [First] + [Second]
  }

  /** No frame began on an empty ring, and the one that got a single sample is
      what swaps left and right. */
  lemma {:induction false} SingleSampleSwaps(c: Chunk)
    requires |c| == 6
    ensures After(2, OneMoreSample(c)) == Ring(4, c[..5], 5, c[5..], None, None, [(c[0], c[1]), (c[2], c[3]), (c[4], c[4])])
    ensures Lone(2, OneMoreSample(c)) == 1
  {
    hide After, Lone;
    var none: seq<(real, real)> := [];
    var e1 := [] + [Offer(c)] + [Look] + [Store];
    FirstStored(c);
    var e2 := e1 + [First];
    OneEventMore(2, e1, First);
    assert After(2, e2) == Ring(4, c[..4], 1, c[4..], None, Some(Some(c[0])), none);
    var e3 := e2 + [Look];
    OneEventMore(2, e2, Look);
    assert After(2, e3) == Ring(4, c[..4], 1, c[4..], Some(1), Some(Some(c[0])), none);
    var e4 := e3 + [Store];
    OneEventMore(2, e3, Store);
    assert c[..4] + c[4..][..1] == c[..5] && c[4..][1..] == c[5..];
    assert After(2, e4) == Ring(4, c[..5], 1, c[5..], None, Some(Some(c[0])), none);
    var e5 := e4 + [Second];
    OneEventMore(2, e4, Second);
    assert After(2, e5) == Ring(4, c[..5], 2, c[5..], None, None, [(c[0], c[1])]);
    FrameHeard(2, e5);
    FrameHeard(2, e5 + [First] + [Second]);
  }

  lemma FirstStored(c: Chunk)
    requires |c| >= 4
    ensures After(2, [] + [Offer(c)] + [Look] + [Store]) == Ring(4, c[..4], 0, c[4..], None, None, [])
    ensures Lone(2, [] + [Offer(c)] + [Look] + [Store]) == 0
  {
    OneEventMore(2, [], Offer(c));
    OneEventMore(2, [] + [Offer(c)], Look);
    OneEventMore(2, [] + [Offer(c)] + [Look], Store);
    assert [] + c[..4] == c[..4];
  }

  /** A frame pulled with nothing between its pops. */
  lemma {:induction false} FrameHeard(frames: nat, events: seq<Event>)
    requires var r := After(frames, events); r.half.None? && Left(r) > 0
    ensures var r, n := After(frames, events), After(frames, events + [First] + [Second]);
      n == r.(taken := n.taken, heard := n.heard) && n.taken == (if Left(r) > 1 then r.taken + 2 else r.taken + 1)
      && n.heard == r.heard + [(r.pushed[r.taken], r.pushed[n.taken - 1])]
    ensures Lone(frames, events + [First] + [Second]) == Lone(frames, events) + if Left(After(frames, events)) == 1 then 1 else 0
  {
    hide After, Lone;
    OneEventMore(frames, events, First);
    OneEventMore(frames, events + [First], Second);
  }

  /** Two pushes that come between the pops of a frame on an empty ring. */
  function TwiceTooEarly(c: Chunk): seq<Event> {
    [] + [First] + [Offer(c)] + [Look] + [Store] + [Second] + [Look] + [Store]
    + [First] + [Second] + [First] + [Second] + [First] + [Look] + [Store] + [Second]
  }

  /** The second puts right what the first has swapped. */
  lemma {:induction false} SecondSplitSwapsBack(c: Chunk)
    requires |c| == 10
    ensures After(2, TwiceTooEarly(c)) ==
      Ring(4, c[..9], 6, c[9..], None, None, [(0.0, c[0]), (c[1], c[2]), (c[3], c[4]), (0.0, c[5])])
    ensures Lone(2, TwiceTooEarly(c)) == 2
  {
    hide After, Lone;
    var none: seq<(real, real)> := [];
    var e1 := [] + [First] + [Offer(c)] + [Look] + [Store];
    StoredTooEarly(c);
    var e2 := e1 + [Second];
    OneEventMore(2, e1, Second);
    assert After(2, e2) == Ring(4, c[..4], 1, c[4..], None, None, [(0.0, c[0])]);
    var e3 := e2 + [Look];
    OneEventMore(2, e2, Look);
    var e4 := e3 + [Store];
    OneEventMore(2, e3, Store);
    assert c[..4] + c[4..][..1] == c[..5] && c[4..][1..] == c[5..];
    assert After(2, e4) == Ring(4, c[..5], 1, c[5..], None, None, [(0.0, c[0])]);
    FrameHeard(2, e4);
    FrameHeard(2, e4 + [First] + [Second]);
    StoredTooEarlyAgain(c, e4 + [First] + [Second] + [First] + [Second]);
  }

  lemma {:induction false} StoredTooEarlyAgain(c: Chunk, e6: seq<Event>)
    requires |c| == 10
    requires After(2, e6) == Ring(4, c[..5], 5, c[5..], None, None, [(0.0, c[0]), (c[1], c[2]), (c[3], c[4])])
    ensures var e := e6 + [First] + [Look] + [Store] + [Second];
      && After(2, e) == Ring(4, c[..9], 6, c[9..], None, None, [(0.0, c[0]), (c[1], c[2]), (c[3], c[4]), (0.0, c[5])])
      && Lone(2, e) == Lone(2, e6) + 1
  {
    hide After, Lone;
    var heard := [(0.0, c[0]), (c[1], c[2]), (c[3], c[4])];
    var e7 := e6 + [First];
    OneEventMore(2, e6, First);
    var e8 := e7 + [Look];
    OneEventMore(2, e7, Look);
    assert After(2, e8) == Ring(4, c[..5], 5, c[5..], Some(4), Some(None), heard);
    OneEventMore(2, e8, Store);
    assert c[..5] + c[5..][..4] == c[..9] && c[5..][4..] == c[9..];
    OneEventMore(2, e8 + [Store], Second);
  }

  lemma StoredTooEarly(c: Chunk)
    requires |c| >= 4
    ensures var e := [] + [First] + [Offer(c)] + [Look] + [Store];
      After(2, e) == Ring(4, c[..4], 0, c[4..], None, Some(None), []) && Lone(2, e) == 0
  {
    OneEventMore(2, [], First);
    OneEventMore(2, [] + [First], Offer(c));
    OneEventMore(2, [] + [First] + [Offer(c)], Look);
    OneEventMore(2, [] + [First] + [Offer(c)] + [Look], Store);
    assert [] + c[..4] == c[..4];
  }
}

module PcmSource {
  import opened Wrappers
  import opened PcmModel
  import Mixer = MixerModel

  datatype Pushing = Pushed | Stopped | Unwatched

  datatype Outcome = Done(count: nat) | Failed | Running

  /** What the decoder, the output and the owner of a track share. `schedule`
      is what the others will do; a run is watched until it is used up. */
  class ExternalPcmSource {
    const capacity: nat
    var queued: seq<real>
    var stopRequested: bool
    var finished: bool
    var schedule: seq<Tick>

    ghost var pushed: seq<real>
    ghost var popped: seq<real>
    ghost var heard: seq<(real, real)>

    ghost predicate Valid()
      reads this
    {
      pushed == popped + queued && |queued| <= capacity
    }

    /** Whole frames only, in a ring that holds whole frames. */
    ghost predicate Framed()
      reads this
    {
      && capacity % 2 == 0 && |queued| % 2 == 0 && |popped| % 2 == 0 && heard == Pairs(popped) && FramesOnly(schedule)
    }

    /** Room for a sample in the ring, and an output that keeps taking. */
    predicate Lively()
      reads this
    {
      capacity > 0 && KeepsTaking(schedule)
    }

    predicate Unstopped()
      reads this
    {
      !stopRequested && NeverStops(schedule)
    }

    constructor (capacityFrames: nat, schedule: seq<Tick>)
      ensures Valid() && pushed == [] && queued == [] && !stopRequested && !finished && this.schedule == schedule
      ensures FramesOnly(schedule) ==> Framed()
    {
      capacity := capacityFrames * Mixer.CHANNELS;
      queued, pushed, popped, heard := [], [], [], [];
      stopRequested, finished := false, false;
      this.schedule := schedule;
    }

    method TryPop() returns (sample: Option<real>)
      requires Valid()
      modifies `queued, `popped
      ensures Valid()
      ensures old(queued) == [] ==> sample == None && queued == [] && popped == old(popped)
      ensures old(queued) != [] ==>
        sample == Some(old(queued[0])) && queued == old(queued)[1..] && popped == old(popped) + [old(queued[0])]
    {
      if |queued| == 0 {
        return None;
      }
      sample := Some(queued[0]);
      popped := popped + [queued[0]];
      queued := queued[1..];
    }

    /** The two pops of the mixer for one frame, no push in between. */
    method PullFrame() returns (left: real, right: real)
      requires Valid()
      modifies `queued, `popped, `heard
      ensures Valid() && Mixer.Pair(Mixer.Stream(0, old(queued))) == Some((left, right))
      ensures Mixer.Stream(0, queued) == Mixer.Pulled(Mixer.Stream(0, old(queued)))
      ensures heard == if old(queued) == [] then old(heard) else old(heard) + [(left, right)]
      ensures |queued| < |old(queued)| || queued == old(queued) == []
      ensures old(Framed()) ==> Framed()
    {
      ghost var before := popped;
      var first := TryPop();
      left := if first.Some? then first.value else 0.0;
      var second := TryPop();
      right := if second.Some? then second.value else left;
      if first.Some? {
        heard := heard + [(left, right)];
        if second.Some? && |before| % 2 == 0 {
          PairsJoin(before, left, right);
          assert popped == before + [left, right];
        }
      }
    }

    method TakeSingles(n: nat)
      requires Valid()
      modifies `queued, `popped
      ensures Valid() && |queued| <= |old(queued)|
      ensures n == 0 ==> queued == old(queued) && popped == old(popped)
    {
      for i := 0 to n
        invariant Valid() && |queued| <= |old(queued)|
        invariant i == 0 ==> queued == old(queued) && popped == old(popped)
      {
        var _ := TryPop();
      }
    }

    method TakeFrames(n: nat)
      requires Valid()
      modifies `queued, `popped, `heard
      ensures Valid() && |queued| <= |old(queued)|
      ensures n > 0 ==> |queued| < |old(queued)| || queued == []
      ensures old(Framed()) ==> Framed()
    {
      hide Framed;
      for i := 0 to n
        invariant Valid() && |queued| <= |old(queued)| && (i > 0 ==> |queued| < |old(queued)| || queued == [])
        invariant old(Framed()) ==> Framed()
      {
        var _, _ := PullFrame();
      }
    }

    /** The next tick of the others; false once there is none left to watch. */
    method Elapse() returns (more: bool)
      requires Valid()
      modifies `queued, `popped, `heard, `stopRequested, `schedule
      ensures Valid() && pushed == old(pushed)
      ensures |queued| <= |old(queued)|
      ensures more ==> |schedule| + 1 == |old(schedule)|
      ensures !more ==> schedule == old(schedule) == [] && queued == old(queued)
      ensures old(stopRequested) ==> stopRequested
      ensures old(Framed()) ==> Framed()
      ensures old(Lively()) ==> Lively() && (more ==> |queued| < |old(queued)| || queued == [])
      ensures old(Unstopped()) ==> Unstopped()
    {
      hide Pairs;
      if |schedule| == 0 {
        return false;
      }
      var tick := schedule[0];
      schedule := schedule[1..];
      stopRequested := stopRequested || tick.stop;
      TakeSingles(tick.singles);
      TakeFrames(tick.frames);
      more := true;
    }

    /** `push_slice`: as much of `samples` as there is room for. */
    method PushSlice(samples: seq<real>) returns (n: nat)
      requires Valid()
      modifies `queued, `pushed
      ensures Valid() && n <= |samples| && pushed == old(pushed) + samples[..n] && queued == old(queued) + samples[..n]
      ensures n == |samples| || |queued| == capacity
      ensures old(Framed()) && |samples| % 2 == 0 ==> Framed() && n % 2 == 0
    {
      var room := capacity - |queued|;
      n := if |samples| < room then |samples| else room;
      queued := queued + samples[..n];
      pushed := pushed + samples[..n];
    }

    /** The inner loop of `decode_into_ring`: `n` of the samples got into the
        ring, all unless a stop was seen at a full ring. */
    method PushAll(decoded: seq<real>) returns (pushing: Pushing, n: nat)
      requires Valid()
      modifies `queued, `popped, `heard, `stopRequested, `schedule, `pushed
      ensures Valid() && n <= |decoded| && pushed == old(pushed) + decoded[..n]
      ensures pushing == Pushed ==> n == |decoded|
      ensures pushing == Stopped ==> stopRequested && n < |decoded| && |queued| == capacity
      ensures pushing == Unwatched ==> schedule == []
      ensures old(stopRequested) ==> stopRequested
      ensures |schedule| <= |old(schedule)|
      ensures old(Framed()) && |decoded| % 2 == 0 ==> Framed()
      ensures old(Lively()) ==> Lively() && |old(schedule)| <= |schedule| + n && (pushing == Unwatched ==> n < |decoded|)
      ensures old(Unstopped()) ==> Unstopped()
    {
      ghost var framed := Framed() && |decoded| % 2 == 0;
      hide *;
      n := 0;
      while n < |decoded|
        invariant Valid() && n <= |decoded| && pushed == old(pushed) + decoded[..n]
        invariant old(stopRequested) ==> stopRequested
        invariant |schedule| <= |old(schedule)|
        invariant framed ==> Framed() && n % 2 == 0
        invariant old(Lively()) ==> Lively() && |old(schedule)| <= |schedule| + n
        invariant old(Unstopped()) ==> Unstopped()
        decreases |schedule|
      {
        var more := Elapse();
        if !more {
          return Unwatched, n;
        }
        PushedMore([], decoded, n, 0);
        var room := PushSlice(decoded[n..]);
        PushedMore(old(pushed), decoded, n, room);
        n := n + room;
        if n < |decoded| {
          if stopRequested {
            return Stopped, n;
          }
        }
      }
      pushing := Pushed;
    }

    /** `decode_into_ring`. */
    method DecodeIntoRing(input: seq<Read>, channels: nat) returns (outcome: Outcome, ghost count: nat)
      requires Valid() && channels > 0
      modifies this
      ensures Valid() && finished == old(finished)
      ensures count <= |SamplesOf(BytesOf(input), channels)|
      ensures pushed == old(pushed) + SamplesOf(BytesOf(input), channels)[..count]
      ensures outcome.Done? ==> outcome.count == count
      ensures outcome.Done? && !stopRequested ==> count == |SamplesOf(BytesOf(input), channels)| && !Fails(input)
      ensures outcome.Failed? ==> count == |SamplesOf(BytesOf(input), channels)| && Fails(input)
      ensures outcome.Running? ==> schedule == []
      ensures old(stopRequested) ==> stopRequested && !outcome.Failed? && count == 0
      ensures old(Framed()) && channels % 2 == 0 ==> Framed()
      ensures old(Lively()) ==> Lively() && |old(schedule)| <= |schedule| + |input| + 1 + count
      ensures old(Lively()) && outcome.Running? ==> |old(schedule)| <= |input| + count
      ensures old(Unstopped()) ==> Unstopped()
    {
      hide *;
      var pending: seq<Byte> := [];
      var sampleCount := 0;
      var k := 0;
      count := 0;
      ghost var all := SamplesOf(BytesOf(input), channels);
      ghost var framed := Framed() && channels % 2 == 0;
      StartOfReads(input, channels);
      while true
        invariant Valid() && k <= |input| && finished == old(finished)
        invariant sampleCount == count <= |all| && pushed == old(pushed) + all[..count]
        invariant all[count..] == SamplesOf(pending + BytesOf(input[k..]), channels)
        invariant |pending| < channels * 2
        invariant Fails(input) == Fails(input[k..])
        invariant old(stopRequested) ==> stopRequested && count == 0
        invariant framed ==> Framed()
        invariant old(Lively()) ==> Lively() && |old(schedule)| <= |schedule| + k + count
        invariant old(Unstopped()) ==> Unstopped()
        decreases |schedule|
      {
        var more := Elapse();
        if !more {
          return Running, count;
        }
        if stopRequested {
          break;
        }
        if k < |input| && input[k].ReadError? {
          NothingLeft(pending, input[k..], channels);
          return Failed, count;
        }
        if k == |input| || |input[k].bytes| == 0 {
          NothingLeft(pending, input[k..], channels);
          break;
        }
        NextRead(pending, input[k..], channels);
        assert input[k..][1..] == input[k + 1..];
        pending := pending + input[k].bytes;
        k := k + 1;
        var complete := Whole(|pending|, channels * 2);
        var decoded := Decoded(pending[..complete]);
        ghost var rest := SamplesOf(pending[complete..] + BytesOf(input[k..]), channels);
        assert all[count..] == decoded + rest;
        FrameSamplesEven(|pending|, channels);
        pending := pending[complete..];
        var pushing, n := PushAll(decoded);
        TakeMore(all, count, decoded, n, rest);
        sampleCount := sampleCount + n;
        count := count + n;
        if pushing == Stopped {
          return Done(sampleCount), count;
        } else if pushing == Unwatched {
          return Running, count;
        }
      }
      outcome := Done(sampleCount);
    }

    /** `wait_until_drained`: `None` while the run is still watched. */
    method WaitUntilDrained() returns (drained: Option<bool>)
      requires Valid()
      modifies `queued, `popped, `heard, `stopRequested, `schedule
      ensures Valid() && pushed == old(pushed)
      ensures drained.Some? && drained.value ==> queued == []
      ensures drained.Some? && !drained.value ==> stopRequested && queued != []
      ensures drained.None? ==> schedule == [] && queued != []
      ensures old(stopRequested) ==> stopRequested
      ensures old(Framed()) ==> Framed()
      ensures old(Lively()) && drained.None? ==> |old(schedule)| < |old(queued)|
      ensures old(Unstopped()) ==> Unstopped()
    {
      while |queued| != 0
        invariant Valid() && pushed == old(pushed)
        invariant old(stopRequested) ==> stopRequested
        invariant old(Framed()) ==> Framed()
        invariant old(Lively()) ==> Lively() && |old(schedule)| + |queued| <= |schedule| + |old(queued)|
        invariant old(Unstopped()) ==> Unstopped()
        decreases |schedule|
      {
        if stopRequested {
          return Some(false);
        }
        var more := Elapse();
        if !more {
          return None;
        }
      }
      drained := Some(true);
    }

    /** The decoder thread of `start_at`. Finished means that the whole track
        was decoded and taken out of the ring, and that no stop had come when
        the decoding was done. */
    method RunDecoder(input: seq<Read>, channels: nat) returns (outcome: Outcome)
      requires Valid() && channels > 0 && pushed == [] && !finished
      modifies this
      ensures Valid() && pushed <= SamplesOf(BytesOf(input), channels)
      ensures finished ==> queued == [] && popped == SamplesOf(BytesOf(input), channels) && !Fails(input) && outcome == Done(|popped|)
      ensures old(stopRequested) ==> !finished && pushed == []
      ensures !finished && outcome.Done? ==> stopRequested || (schedule == [] && queued != [])
      ensures (old(Lively() && Unstopped()) && !Fails(input) && |old(schedule)| > Ticks(input, channels)) ==> finished
      ensures old(Framed()) && channels % 2 == 0 ==>
        && |queued| % 2 == 0
        && forall k :: 0 <= k < |heard| ==> 2 * k + 1 < |pushed| && heard[k] == (pushed[2 * k], pushed[2 * k + 1])
    {
      hide SamplesOf, BytesOf, Fails, Pairs, FramesOnly;
      ghost var count;
      outcome, count := DecodeIntoRing(input, channels);
      if outcome.Done? {
        if !stopRequested {
          var drained := WaitUntilDrained();
          if drained.Some? && drained.value {
            finished := true;
          }
        }
      }
      if Framed() {
        assert popped[..|popped|] == popped;
        forall k | 0 <= k < |heard| ensures 2 * k + 1 < |pushed| && heard[k] == (pushed[2 * k], pushed[2 * k + 1]) {
          LeftStaysLeft(popped, |popped|, heard, k);
        }
      }
    }
  }
}
