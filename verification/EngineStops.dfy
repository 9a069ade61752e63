/** How a playback ends: its source fades to silence before it is removed, and
    a start that was cancelled in time never gets a source. */
module EngineStops {
  import opened Wrappers
  import opened EngineSlots
  import opened EngineProofs
  import Model = MixerModel
  import Proofs = MixerProofs

  /** A change of levels for the playback `id`. */
  predicate Levels(item: Item, id: nat) { item.owner == id && item.command.SetLevelsOf? }

  /** The last change of its levels still queued is to silence. */
  ghost predicate SilenceQueued(e: Engine, id: nat) {
    exists i :: 0 <= i < |e.queue| && SilenceAt(e, id, i)
  }

  ghost predicate SilenceAt(e: Engine, id: nat, i: nat)
    requires i < |e.queue|
  {
    && Levels(e.queue[i], id) && e.queue[i].command.front == 0.0 && e.queue[i].command.rear == 0.0
    && forall j :: i < j < |e.queue| ==> !Levels(e.queue[j], id)
  }

  /** None is queued any more, and its source is on the way to silence. */
  ghost predicate Silenced(e: Engine, id: nat) {
    && (forall i :: 0 <= i < |e.queue| ==> !Levels(e.queue[i], id))
    && (forall slot: nat :: Owns(e.mixer, slot, id) ==> ToSilence(e.mixer, slot))
  }

  predicate ToSilence(m: Model.Mixer, slot: nat)
    requires slot < |m.slots| && m.slots[slot].Some?
  {
    m.slots[slot].value.levels.target == 0.0 && m.slots[slot].value.levels.rearTarget == 0.0
  }

  predicate Ends(e: Engine, id: nat) {
    id in e.phases && (e.phases[id].Stopping? || e.phases[id].Stopped?)
  }

  ghost predicate FadesOut(e: Engine) {
    forall id :: Ends(e, id) ==> SilenceQueued(e, id) || Silenced(e, id)
  }

  // ----------------------------------------------------------------- one step

  /** More in the queue, but no levels of `id`. */
  lemma QueueGrows(e: Engine, next: Engine, id: nat)
    requires |e.queue| <= |next.queue| && next.queue[..|e.queue|] == e.queue
    requires forall j :: |e.queue| <= j < |next.queue| ==> !Levels(next.queue[j], id)
    requires next.mixer == e.mixer && (SilenceQueued(e, id) || Silenced(e, id))
    ensures SilenceQueued(next, id) || Silenced(next, id)
  {
    assert forall j :: 0 <= j < |e.queue| ==> next.queue[j] == next.queue[..|e.queue|][j] == e.queue[j];
    if SilenceQueued(e, id) {
      var i :| 0 <= i < |e.queue| && SilenceAt(e, id, i);
      assert SilenceAt(next, id, i);
    }
  }

  /** What callers do: a stop sends silence last, and after it no levels. */
  lemma CallersFadeOut(e: Engine, step: Step)
    requires FadesOut(e) && !step.Apply? && !step.Output? && !step.Refill? && e.mixer.fadeFrames > 0
    ensures FadesOut(Next(e, step))
  {
    hide Silenced, SilenceQueued;
    var next := Next(e, step);
    forall id | Ends(next, id) ensures SilenceQueued(next, id) || Silenced(next, id) {
      if step.BeginStop? && step.id == id && IsLive(e, id) {
        assert SilenceAt(next, id, |e.queue|);
        SilenceIsAt(next, id, |e.queue|);
      } else {
        assert Ends(e, id);
        QueueGrows(e, next, id);
      }
    }
  }

  lemma SilenceIsAt(e: Engine, id: nat, i: nat)
    requires i < |e.queue| && SilenceAt(e, id, i)
    ensures SilenceQueued(e, id)
  {
  }

  /** Every ring is where it was, with the targets it had. */
  ghost predicate SameTargets(m: Model.Mixer, n: Model.Mixer) {
    && |m.slots| == |n.slots|
    && forall i :: 0 <= i < |m.slots| ==> SameTarget(m.slots[i], n.slots[i])
  }

  predicate SameTarget(a: Option<Model.Source>, b: Option<Model.Source>) {
    && SameRing(a, b)
    && (a.Some? ==> a.value.levels.target == b.value.levels.target && a.value.levels.rearTarget == b.value.levels.rearTarget)
  }

  lemma {:induction false} FramesKeepTargets(slots: Model.Slots, frames: nat, withRear: bool)
    requires forall i :: 0 <= i < |slots| && slots[i].Some? ==> slots[i].value.feed.Stream?
    ensures var after := Model.AfterFrames(slots, frames, withRear);
      |after| == |slots| && forall i :: 0 <= i < |slots| ==> SameTarget(slots[i], after[i])
    decreases frames
  {
    if frames > 0 {
      FramesKeepTargets(Model.AfterFrame(slots, withRear), frames - 1, withRear);
    }
  }

  lemma {:induction false} PlayingKeepsTargets(e: Engine, step: Step)
    requires Consistent(e) && (step.Output? || step.Refill?)
    ensures SameTargets(e.mixer, Next(e, step).mixer)
  {
    hide Model.AfterFrames, Model.Frames;
    if step.Output? {
      FramesKeepTargets(e.mixer.slots, step.frames, step.withRear);
    }
  }

  lemma PlayingFadesOut(e: Engine, step: Step)
    requires Consistent(e) && FadesOut(e) && (step.Output? || step.Refill?)
    ensures FadesOut(Next(e, step))
  {
    var next := Next(e, step);
    PlayingKeepsTargets(e, step);
    hide Consistent, Next, SameTargets;
    assert next.queue == e.queue && next.phases == e.phases by { PlayingKeepsRest(e, step); }
    forall id | Ends(next, id) ensures SilenceQueued(next, id) || Silenced(next, id) {
      assert Ends(e, id);
      SameTargetsSameEnd(e, next, id);
    }
  }

  lemma PlayingKeepsRest(e: Engine, step: Step)
    requires e.mixer.fadeFrames > 0 && (step.Output? || step.Refill?)
    ensures Next(e, step).queue == e.queue && Next(e, step).phases == e.phases
  {
  }

  lemma SameTargetsSameEnd(e: Engine, next: Engine, id: nat)
    requires SameTargets(e.mixer, next.mixer) && next.queue == e.queue && (SilenceQueued(e, id) || Silenced(e, id))
    ensures SilenceQueued(next, id) || Silenced(next, id)
  {
    if SilenceQueued(e, id) {
      var i :| 0 <= i < |e.queue| && SilenceAt(e, id, i);
      assert SilenceAt(next, id, i);
    } else {
      forall slot: nat | Owns(next.mixer, slot, id) ensures ToSilence(next.mixer, slot) {
        assert SameTarget(e.mixer.slots[slot], next.mixer.slots[slot]);
        assert Owns(e.mixer, slot, id);
      }
    }
  }

  /** The head of the queue gone: what it did to the playback `id`. */
  lemma AppliedFadesOut(e: Engine, id: nat)
    requires Consistent(e) && e.queue != [] && e.taken.Some? && Ends(e, id) && (SilenceQueued(e, id) || Silenced(e, id))
    ensures SilenceQueued(HeadApplied(e), id) || Silenced(HeadApplied(e), id)
  {
    hide HeadApplied, Consistent;
    ConsistentFades(e);
    var next, head := HeadApplied(e), e.queue[0];
    HeadIsGone(e);
    assert forall j :: 0 <= j < |next.queue| ==> next.queue[j] == e.queue[j + 1];
    HeadKeepsOthers(e, id);
    if SilenceQueued(e, id) {
      var i :| 0 <= i < |e.queue| && SilenceAt(e, id, i);
      if i > 0 {
        assert SilenceAt(next, id, i - 1);
        SilenceIsAt(next, id, i - 1);
      } else {
        HeadSilences(e, id);
      }
    } else {
      assert !Levels(head, id);
    }
  }

  lemma ConsistentFades(e: Engine)
    requires Consistent(e)
    ensures e.mixer.fadeFrames > 0
  {
  }

  /** But for new levels, what a playback owns after the head it owned before,
      with the same targets. */
  lemma HeadKeepsOthers(e: Engine, id: nat)
    requires Consistent(e) && e.queue != [] && e.taken.Some? && Ends(e, id)
    ensures !Levels(e.queue[0], id) ==> forall slot: nat :: Owns(HeadApplied(e).mixer, slot, id) ==>
      Owns(e.mixer, slot, id) && HeadApplied(e).mixer.slots[slot] == e.mixer.slots[slot]
  {
    var next, head := HeadApplied(e), e.queue[0];
    assert ItemSound(e, 0);
    if head.command.Add? {
      assert id != head.owner;
      hide Consistent, HeadApplied;
      forall slot: nat | Owns(next.mixer, slot, id) ensures Owns(e.mixer, slot, id) && next.mixer.slots[slot] == e.mixer.slots[slot] {
        AddKeepsSlots(e, slot);
      }
    } else {
      HeadHitsItsOwn(e);
      hide HeadApplied, Consistent;
    }
  }

  lemma AddKeepsSlots(e: Engine, slot: nat)
    requires e.mixer.fadeFrames > 0 && e.queue != [] && e.taken.Some? && e.queue[0].command.Add? && e.queue[0].command.id == e.queue[0].owner
    ensures var m := HeadApplied(e).mixer;
      && |m.slots| == |e.mixer.slots|
      && (slot < |m.slots| ==> m.slots[slot] == e.mixer.slots[slot] || Owns(m, slot, e.queue[0].owner))
  {
  }

  lemma HeadSilences(e: Engine, id: nat)
    requires Consistent(e) && e.queue != [] && e.taken.Some? && Ends(e, id) && SilenceAt(e, id, 0)
    ensures Silenced(HeadApplied(e), id)
  {
    var next, head := HeadApplied(e), e.queue[0];
    HeadHitsItsOwn(e);
    HeadIsGone(e);
    ApplyKeepsConsistent(e);
    hide HeadApplied;
    assert forall j :: 0 <= j < |next.queue| ==> next.queue[j] == e.queue[j + 1];
    assert ItemSound(e, 0);
    forall slot: nat | Owns(next.mixer, slot, id) ensures ToSilence(next.mixer, slot) {
      OneSlotEach(e, id, slot, head.command.slot, next);
    }
  }

  /** A playback that ends owns one slot. */
  lemma OneSlotEach(e: Engine, id: nat, slot: nat, own: nat, next: Engine)
    requires Consistent(e) && Consistent(next) && Ends(e, id) && next.phases == e.phases
    requires Owns(e.mixer, own, id) && Owns(next.mixer, slot, id)
    ensures slot == own
  {
    assert AccountedFor(e, own, id);
    assert AccountedFor(next, slot, id);
  }

  lemma {:induction false} StepFadesOut(e: Engine, step: Step)
    requires Consistent(e) && FadesOut(e)
    ensures FadesOut(Next(e, step))
  {
    hide Consistent, HeadApplied, SilenceQueued, Silenced;
    ConsistentFades(e);
    if step.Apply? {
      if e.taken.Some? && e.queue != [] {
        HeadIsGone(e);
        forall id | Ends(HeadApplied(e), id) ensures SilenceQueued(HeadApplied(e), id) || Silenced(HeadApplied(e), id) {
          assert Ends(e, id);
          AppliedFadesOut(e, id);
        }
      }
    } else if step.Output? || step.Refill? {
      PlayingFadesOut(e, step);
    } else {
      CallersFadeOut(e, step);
    }
  }

  // -------------------------------------------------------------------- runs

  lemma {:induction false} AlwaysFadesOut(sampleRate: nat, steps: seq<Step>)
    ensures FadesOut(Run(sampleRate, steps))
    decreases |steps|
  {
    hide Consistent, FadesOut, Next;
    if steps == [] {
      NobodyEnds(sampleRate);
    } else {
      AlwaysFadesOut(sampleRate, steps[..|steps| - 1]);
      AlwaysConsistent(sampleRate, steps[..|steps| - 1]);
      StepFadesOut(Run(sampleRate, steps[..|steps| - 1]), steps[|steps| - 1]);
    }
  }

  lemma NobodyEnds(sampleRate: nat)
    ensures FadesOut(Opened(sampleRate))
  {
  }

  /** In every run a source that is removed was sent to silence before, front
      and rear, by the last change of its levels. */
  lemma {:induction false} RemovedAfterSilence(sampleRate: nat, steps: seq<Step>)
    ensures var e := Run(sampleRate, steps);
      e.queue != [] && e.taken.Some? && e.queue[0].command.Remove? ==>
        (var slot := e.queue[0].command.slot; Owns(e.mixer, slot, e.queue[0].owner) && ToSilence(e.mixer, slot))
  {
    hide Run, Silenced, SilenceQueued;
    AlwaysConsistent(sampleRate, steps);
    AlwaysFadesOut(sampleRate, steps);
    var e := Run(sampleRate, steps);
    if e.queue != [] && e.taken.Some? && e.queue[0].command.Remove? {
      assert ItemSound(e, 0);
      NothingBehindRemove(e);
    }
  }

  lemma NothingBehindRemove(e: Engine)
    requires e.queue != [] && e.queue[0].command.Remove? && ItemSound(e, 0)
    requires SilenceQueued(e, e.queue[0].owner) || Silenced(e, e.queue[0].owner)
    ensures ToSilence(e.mixer, e.queue[0].command.slot)
  {
    hide Owns;
    var id := e.queue[0].owner;
    forall i | 0 <= i < |e.queue| ensures !SilenceAt(e, id, i) {
    }
  }

  /** A start whose flag is set when the callback looks gets no source, and its
      answer is an error. */
  lemma CancelledInTime(e: Engine)
    requires Consistent(e) && e.taken.None? && e.verdict.None? && e.queue != []
    requires e.queue[0].command.Add? && In(e, e.queue[0].owner, CancelSet)
    ensures var next := Next(Next(e, Take), Apply);
      next.mixer == e.mixer && next.queue == e.queue[1..] && next.verdict == Some(Verdict(e.queue[0].owner, Err(Model.Cancelled)))
  {
  }

  /** One that was not cancelled gets the first free slot at full gain, unless
      there is none. */
  lemma StartedAtFull(e: Engine)
    requires Consistent(e) && e.taken.None? && e.verdict.None? && e.queue != []
    requires e.queue[0].command.Add? && !In(e, e.queue[0].owner, CancelSet)
    ensures var next, id := Next(Next(e, Take), Apply), e.queue[0].owner;
      if forall i :: 0 <= i < |e.mixer.slots| ==> e.mixer.slots[i].Some? then
        next.mixer == e.mixer && next.verdict == Some(Verdict(id, Err(Model.LimitReached)))
      else
        exists slot :: 0 <= slot < |e.mixer.slots| && StartedIn(e, next, id, slot)
  {
    var free := Model.FirstFree(e.mixer.slots);
    assert ItemSound(e, 0);
    if free.Some? {
      assert StartedIn(e, Next(Next(e, Take), Apply), e.queue[0].owner, free.value);
    }
  }

  predicate StartedIn(e: Engine, next: Engine, id: nat, slot: nat)
    requires slot < |e.mixer.slots| && e.queue != [] && e.queue[0].command.Add?
  {
    && (forall i :: 0 <= i < slot ==> e.mixer.slots[i].Some?) && e.mixer.slots[slot].None?
    && next.verdict == Some(Verdict(id, Ok(slot)))
    && next.mixer.slots == e.mixer.slots[slot :=
         Some(Model.Source(Model.Stream(id, e.queue[0].command.queued), Model.Levels(1.0, 1.0, 0.0, 1.0, 1.0, 0.0, 0)))]
  }

  /** The nearest gain there is. */
  function Gain(x: real): real { if x < 0.0 then 0.0 else if x > 1.0 then 1.0 else x }

  /** The callback comes to the one command that waits. */
  function Done(e: Engine): Engine
    requires e.mixer.fadeFrames > 0
  {
    Next(Next(e, Take), Apply)
  }

  /** What a live playback is asked for arrives at its own source and nowhere
      else: its levels, front and rear; */
  lemma {:induction false} LevelsArrive(e: Engine, id: nat, front: real, rear: real)
    requires Consistent(e) && e.queue == [] && e.taken.None? && e.verdict.None? && IsLive(e, id)
    ensures var slot := e.phases[id].slot;
      Owns(e.mixer, slot, id) && Arrived(e, Done(Next(e, SetLevels(id, front, rear))), slot, Gain(front), Gain(rear))
  {
    assert PhaseSound(e, id);
    hide Consistent;
  }

  /** silence, when it begins to stop; */
  lemma {:induction false} SilenceArrives(e: Engine, id: nat)
    requires Consistent(e) && e.queue == [] && e.taken.None? && e.verdict.None? && IsLive(e, id)
    ensures var slot := e.phases[id].slot;
      Owns(e.mixer, slot, id) && Arrived(e, Done(Next(e, BeginStop(id))), slot, 0.0, 0.0)
  {
    assert PhaseSound(e, id);
    hide Consistent;
  }

  /** and its end. */
  lemma {:induction false} EndArrives(e: Engine, id: nat)
    requires Consistent(e) && e.queue == [] && e.taken.None? && e.verdict.None? && IsStopping(e, id)
    ensures var slot := e.phases[id].slot;
      Owns(e.mixer, slot, id) && Done(Next(e, EndStop(id))).mixer.slots == e.mixer.slots[slot := None]
  {
    assert PhaseSound(e, id);
    hide Consistent;
  }

  ghost predicate Arrived(e: Engine, r: Engine, slot: nat, front: real, rear: real)
    requires slot < |e.mixer.slots| && e.mixer.slots[slot].Some?
  {
    && |r.mixer.slots| == |e.mixer.slots| && r.mixer.slots[slot].Some?
    && r.mixer.slots == e.mixer.slots[slot := r.mixer.slots[slot]]
    && r.mixer.slots[slot].value.feed == e.mixer.slots[slot].value.feed
    && var levels, before := r.mixer.slots[slot].value.levels, e.mixer.slots[slot].value.levels;
       && levels.target == front && levels.rearTarget == rear && levels.remaining == e.mixer.fadeFrames
       && levels.gain == before.gain && levels.rear == before.rear
  }

  /** The callback fades over a quarter of a second. */
  lemma FadesTakeAQuarter(sampleRate: nat, steps: seq<Step>)
    requires sampleRate >= 8
    ensures var frames := Run(sampleRate, steps).mixer.fadeFrames; 4 * frames <= sampleRate < 4 * frames + 4
    decreases |steps|
  {
    hide Next;
    if steps != [] {
      FadesTakeAQuarter(sampleRate, steps[..|steps| - 1]);
    }
  }
}
