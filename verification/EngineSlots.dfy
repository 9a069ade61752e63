/** Playbacks of `src/backend/src/cpal_audio_engine.rs` around the mixer's
    slots: the threads of the callers and the output callback, interleaved
    step by step over the command queue. */
module EngineSlots {
  import opened Wrappers
  import Model = MixerModel
  import Proofs = MixerProofs

  /** One call of `start_at` and the playback it returns. */
  datatype Phase =
    | Waiting                // Add sent, in recv_timeout
    | TimedOut               // recv_timeout gave up, the flag not set yet
    | CancelSet              // the flag set, start_at failed
    | Refused                // the mixer answered with an error
    | Live(slot: nat)
    | Stopping(slot: nat)    // levels 0 sent, waiting for the fade
    | Stopped(slot: nat)     // Remove sent
    | Abandoned(slot: nat)   // dropped without a stop

  /** A command and the start it belongs to. */
  datatype Item = Item(owner: nat, command: Model.Command)

  /** What an `Add` came to. */
  datatype Verdict = Verdict(owner: nat, result: Result<nat, Model.MixerError>)

  /** `taken` is set while the callback works on the head of the queue, to
      what the head's cancelled flag held when it looked; `verdict` from then
      on until the answer to an `Add` is sent. */
  datatype Engine = Engine(mixer: Model.Mixer, queue: seq<Item>, taken: Option<bool>, verdict: Option<Verdict>,
                           phases: map<nat, Phase>, replies: map<nat, Result<nat, Model.MixerError>>)

  datatype Step =
    | Start(id: nat, queued: seq<real>)
    | Take
    | Apply
    | Reply
    | Receive(id: nat)
    | TimeOut(id: nat)
    | Cancel(id: nat)
    | SetLevels(id: nat, front: real, rear: real)
    | BeginStop(id: nat)
    | EndStop(id: nat)
    | Abandon(id: nat)
    | Output(frames: nat, withRear: bool)
    | Refill(slot: nat, more: seq<real>)

  /** The nearest gain from 0 to 1. */
  function ToUnit(x: real): (r: real)
    ensures 0.0 <= r <= 1.0 && (0.0 <= x <= 1.0 ==> r == x) && (x < 0.0 ==> r == 0.0) && (x > 1.0 ==> r == 1.0)
  {
    if x < 0.0 then 0.0 else if x > 1.0 then 1.0 else x
  }

  function Send(e: Engine, owner: nat, command: Model.Command): Engine {
    e.(queue := e.queue + [Item(owner, command)])
  }

  predicate In(e: Engine, id: nat, phase: Phase) {
    id in e.phases && e.phases[id] == phase
  }

  /** A started playback that still takes calls. */
  predicate IsLive(e: Engine, id: nat) { id in e.phases && e.phases[id].Live? }

  predicate IsStopping(e: Engine, id: nat) { id in e.phases && e.phases[id].Stopping? }

  function Enter(e: Engine, id: nat, phase: Phase): Engine {
    e.(phases := e.phases[id := phase])
  }

  function Answered(e: Engine, id: nat): Engine
    requires id in e.replies
  {
    Enter(e.(replies := e.replies - {id}), id, if e.replies[id].Ok? then Live(e.replies[id].value) else Refused)
  }

  /** The head applied, the answer to an `Add` still to be sent. */
  function HeadApplied(e: Engine): Engine
    requires e.mixer.fadeFrames > 0 && e.queue != [] && e.taken.Some?
  {
    var head := e.queue[0];
    var applied := Model.Apply(e.mixer, head.command, e.taken.value);
    e.(mixer := applied.0, queue := e.queue[1..], taken := None,
       verdict := if applied.1.Some? then Some(Verdict(head.owner, applied.1.value)) else None)
  }

  /** The answer sent; it reaches only a caller still waiting. */
  function Replied(e: Engine): Engine
    requires e.verdict.Some?
  {
    var v := e.verdict.value;
    e.(verdict := None, replies := if In(e, v.owner, Waiting) then e.replies[v.owner := v.result] else e.replies)
  }

  /** A step not possible now changes nothing. */
  function Next(e: Engine, step: Step): (r: Engine)
    requires e.mixer.fadeFrames > 0
    ensures r.mixer.fadeFrames == e.mixer.fadeFrames
  {
    match step
    case Start(id, queued) =>
      if id in e.phases then e else Enter(Send(e, id, Model.Add(id, queued)), id, Waiting)
    case Take =>
      if e.taken.Some? || e.verdict.Some? || e.queue == [] then e
      else e.(taken := Some(e.queue[0].command.Add? && In(e, e.queue[0].owner, CancelSet)))
    case Apply => if e.taken.None? || e.queue == [] then e else HeadApplied(e)
    case Reply => if e.verdict.None? then e else Replied(e)
    case Receive(id) => if In(e, id, Waiting) && id in e.replies then Answered(e, id) else e
    case TimeOut(id) => if In(e, id, Waiting) && id !in e.replies then Enter(e, id, TimedOut) else e
    case Cancel(id) => if In(e, id, TimedOut) then Enter(e, id, CancelSet) else e
    case SetLevels(id, front, rear) =>
      if IsLive(e, id) then Send(e, id, Model.SetLevelsOf(e.phases[id].slot, ToUnit(front), ToUnit(rear))) else e
    case BeginStop(id) =>
      if IsLive(e, id) then Enter(Send(e, id, Model.SetLevelsOf(e.phases[id].slot, 0.0, 0.0)), id, Stopping(e.phases[id].slot)) else e
    case EndStop(id) =>
      if IsStopping(e, id) then Enter(Send(e, id, Model.Remove(e.phases[id].slot)), id, Stopped(e.phases[id].slot)) else e
    case Abandon(id) => if IsLive(e, id) then Enter(e, id, Abandoned(e.phases[id].slot)) else e
    case Output(frames, withRear) => if e.taken.Some? || e.verdict.Some? then e else e.(mixer := Model.Render(e.mixer, frames, withRear).1)
    case Refill(slot, more) => e.(mixer := e.mixer.(slots := Proofs.Refilled(e.mixer.slots, slot, more)))
  }

  function Opened(sampleRate: nat): (e: Engine)
    ensures e.mixer.fadeFrames > 0
  {
    Engine(Model.NewMixer(sampleRate, 250), [], None, None, map[], map[])
  }

  function Run(sampleRate: nat, steps: seq<Step>): (e: Engine)
    ensures e.mixer.fadeFrames > 0
    decreases |steps|
  {
    if steps == [] then Opened(sampleRate) else Next(Run(sampleRate, steps[..|steps| - 1]), steps[|steps| - 1])
  }

  // --------------------------------------------------------------- invariant

  /** Slot `slot` plays the ring of the start `id`. */
  predicate Owns(m: Model.Mixer, slot: nat, id: nat) {
    slot < |m.slots| && m.slots[slot].Some? && m.slots[slot].value.feed.Stream? && m.slots[slot].value.feed.id == id
  }

  predicate Starting(e: Engine, id: nat) {
    id in e.phases && (e.phases[id].Waiting? || e.phases[id].TimedOut? || e.phases[id].CancelSet?)
  }

  predicate Holds(e: Engine, id: nat, slot: nat) {
    In(e, id, Live(slot)) || In(e, id, Stopping(slot)) || In(e, id, Stopped(slot)) || In(e, id, Abandoned(slot))
  }

  ghost predicate ItemSound(e: Engine, i: nat)
    requires i < |e.queue|
  {
    var item := e.queue[i];
    match item.command
    case Add(id, _) =>
      && id == item.owner && Starting(e, id) && id !in e.replies
      && (forall slot :: !Owns(e.mixer, slot, id))
      && (forall j :: 0 <= j < |e.queue| && j != i ==> e.queue[j].owner != id)
    case SetLevelsOf(slot, front, rear) =>
      Holds(e, item.owner, slot) && Owns(e.mixer, slot, item.owner) && Model.Unit(front) && Model.Unit(rear)
    case Remove(slot) =>
      && In(e, item.owner, Stopped(slot)) && Owns(e.mixer, slot, item.owner)
      && (forall j :: i < j < |e.queue| ==> e.queue[j].owner != item.owner)
  }

  /** What a start knows of its slot. */
  ghost predicate PhaseSound(e: Engine, id: nat)
    requires id in e.phases
  {
    match e.phases[id]
    case Waiting => id in e.replies && e.replies[id].Ok? ==> Owns(e.mixer, e.replies[id].value, id)
    case Live(slot) => Owns(e.mixer, slot, id)
    case Stopping(slot) => Owns(e.mixer, slot, id)
    case Abandoned(slot) => Owns(e.mixer, slot, id)
    case _ => true
  }

  ghost predicate RemoveQueued(e: Engine, id: nat, slot: nat) {
    exists i :: 0 <= i < |e.queue| && e.queue[i] == Item(id, Model.Remove(slot))
  }

  /** The answer to this start is about to be sent. */
  predicate Answering(e: Engine, id: nat) { e.verdict.Some? && e.verdict.value.owner == id }

  ghost predicate VerdictSound(e: Engine) {
    e.verdict.Some? ==>
      var id, result := e.verdict.value.owner, e.verdict.value.result;
      && e.taken.None? && Starting(e, id) && id !in e.replies
      && (forall i :: 0 <= i < |e.queue| ==> e.queue[i].owner != id)
      && (if result.Ok? then Owns(e.mixer, result.value, id) else forall slot :: !Owns(e.mixer, slot, id))
  }

  /** Who answers for an occupied slot. */
  ghost predicate AccountedFor(e: Engine, slot: nat, id: nat) {
    || (In(e, id, Waiting) && e.verdict == Some(Verdict(id, Ok(slot))))
    || (In(e, id, Waiting) && id in e.replies && e.replies[id] == Ok(slot))
    || In(e, id, Live(slot)) || In(e, id, Stopping(slot))
    || (In(e, id, Stopped(slot)) && RemoveQueued(e, id, slot))
    || In(e, id, Abandoned(slot))
    || In(e, id, TimedOut) || In(e, id, CancelSet)
  }

  ghost predicate Consistent(e: Engine) {
    && e.mixer.fadeFrames > 0
    && (forall i :: 0 <= i < |e.mixer.slots| && e.mixer.slots[i].Some? ==> e.mixer.slots[i].value.feed.Stream?)
    && (forall i :: 0 <= i < |e.queue| ==> ItemSound(e, i))
    && VerdictSound(e)
    && (forall id :: id in e.phases ==> PhaseSound(e, id))
    && (forall id :: id in e.replies ==> In(e, id, Waiting))
    && (forall slot, id :: Owns(e.mixer, slot, id) ==> AccountedFor(e, slot, id))
  }

  /** Left in its slot with nobody to remove it, and nobody to be told. */
  ghost predicate Orphan(e: Engine, id: nat) {
    GaveUp(e, id) && !Answering(e, id) && exists slot :: Owns(e.mixer, slot, id)
  }

  /** A caller that will send nothing any more, and never sent a Remove. */
  predicate GaveUp(e: Engine, id: nat) {
    id in e.phases && (e.phases[id].TimedOut? || e.phases[id].CancelSet? || e.phases[id].Abandoned?)
  }

  /** The steps that leave an orphan. One is the answer to a start whose source
      was added, after its caller gave up: before the adding or since; */
  predicate AnswersTooLate(e: Engine, step: Step, id: nat) {
    step.Reply? && Answering(e, id) && e.verdict.value.result.Ok? && !In(e, id, Waiting)
  }

  /** the other is a playback dropped while it was live: it has no `Drop` of
      its own, so no Remove is ever sent. */
  predicate DropsLive(e: Engine, step: Step, id: nat) {
    step == Abandon(id) && IsLive(e, id)
  }

  predicate Leaves(e: Engine, step: Step, id: nat) {
    AnswersTooLate(e, step, id) || DropsLive(e, step, id)
  }
}

/** Slot numbers are reused, and still no command ever meets another's source. */
module EngineProofs {
  import opened Wrappers
  import opened EngineSlots
  import Model = MixerModel
  import Proofs = MixerProofs

  // ------------------------------------------------------- the queue's head

  /** Rendering and refilling move no source. */
  lemma {:induction false} PlayingMovesNothing(m: Model.Mixer, frames: nat, withRear: bool)
    requires forall i :: 0 <= i < |m.slots| && m.slots[i].Some? ==> m.slots[i].value.feed.Stream?
    ensures var after := Model.Render(m, frames, withRear).1;
      && |after.slots| == |m.slots|
      && forall i :: 0 <= i < |m.slots| ==> SameRing(m.slots[i], after.slots[i])
  {
    FramesMoveNothing(m.slots, frames, withRear);
  }

  predicate SameRing(a: Option<Model.Source>, b: Option<Model.Source>) {
    && a.Some? == b.Some?
    && (a.Some? ==> a.value.feed.Stream? && b.value.feed.Stream? && a.value.feed.id == b.value.feed.id)
  }

  lemma {:induction false} FramesMoveNothing(slots: Model.Slots, frames: nat, withRear: bool)
    requires forall i :: 0 <= i < |slots| && slots[i].Some? ==> slots[i].value.feed.Stream?
    ensures var after := Model.AfterFrames(slots, frames, withRear);
      && |after| == |slots|
      && forall i :: 0 <= i < |slots| ==> SameRing(slots[i], after[i])
    decreases frames
  {
    if frames > 0 {
      FramesMoveNothing(Model.AfterFrame(slots, withRear), frames - 1, withRear);
    }
  }

  lemma SameRingsKeepConsistent(e: Engine, after: Model.Mixer)
    requires Consistent(e) && after.fadeFrames > 0 && |after.slots| == |e.mixer.slots|
    requires forall i :: 0 <= i < |after.slots| ==> SameRing(e.mixer.slots[i], after.slots[i])
    ensures Consistent(e.(mixer := after))
    ensures forall id :: Orphan(e.(mixer := after), id) <==> Orphan(e, id)
  {
    var next := e.(mixer := after);
    assert forall slot, id :: Owns(after, slot, id) <==> Owns(e.mixer, slot, id);
    forall i | 0 <= i < |e.queue| ensures ItemSound(next, i) {
      assert ItemSound(e, i);
    }
    forall id | id in e.phases ensures PhaseSound(next, id) {
      assert PhaseSound(e, id);
    }
    forall slot, id | Owns(after, slot, id) ensures AccountedFor(next, slot, id) {
      assert Owns(e.mixer, slot, id) && AccountedFor(e, slot, id);
      if RemoveQueued(e, id, slot) { assert RemoveQueued(next, id, slot); }
    }
  }

  // ------------------------------------------------------------ what is sent

  lemma OwnersAreKnown(e: Engine)
    requires Consistent(e)
    ensures forall slot, id :: Owns(e.mixer, slot, id) ==> id in e.phases
    ensures forall i :: 0 <= i < |e.queue| ==> e.queue[i].owner in e.phases
  {
    forall i | 0 <= i < |e.queue| ensures e.queue[i].owner in e.phases {
      assert ItemSound(e, i);
    }
  }

  lemma StartKeepsConsistent(e: Engine, id: nat, queued: seq<real>)
    requires Consistent(e) && id !in e.phases
    ensures Consistent(Enter(Send(e, id, Model.Add(id, queued)), id, Waiting))
  {
    var next := Enter(Send(e, id, Model.Add(id, queued)), id, Waiting);
    OwnersAreKnown(e);
    forall i | 0 <= i < |next.queue| ensures ItemSound(next, i) {
      if i < |e.queue| { assert ItemSound(e, i); }
    }
    forall k | k in next.phases ensures PhaseSound(next, k) {
      if k != id { assert PhaseSound(e, k); }
    }
    forall slot, k | Owns(next.mixer, slot, k) ensures AccountedFor(next, slot, k) {
      AccountKept(e, next, slot, k);
    }
  }

  /** A `Remove` on its way is still on its way. */
  lemma AccountKept(e: Engine, next: Engine, slot: nat, id: nat)
    requires Owns(e.mixer, slot, id) ==> AccountedFor(e, slot, id)
    requires |next.queue| >= |e.queue| && next.queue[..|e.queue|] == e.queue
    requires Owns(e.mixer, slot, id) && id in e.phases
    requires id in next.phases && next.phases[id] == e.phases[id]
    requires id in e.replies ==> id in next.replies && next.replies[id] == e.replies[id]
    requires Answering(e, id) ==> next.verdict == e.verdict
    ensures AccountedFor(next, slot, id)
  {
    if RemoveQueued(e, id, slot) {
      var i :| 0 <= i < |e.queue| && e.queue[i] == Item(id, Model.Remove(slot));
      assert next.queue[..|e.queue|][i] == next.queue[i];
    }
  }

  /** A playback sends one command more and goes on to `phase`. */
  lemma SendKeepsConsistent(e: Engine, id: nat, command: Model.Command, phase: Phase, slot: nat)
    requires Consistent(e)
    requires In(e, id, Live(slot)) || (In(e, id, Stopping(slot)) && phase == Stopped(slot))
    requires phase == Live(slot) || phase == Stopping(slot) || phase == Stopped(slot)
    requires phase == Stopped(slot) ==> command == Model.Remove(slot)
    requires phase != Stopped(slot) ==> command.SetLevelsOf? && command.slot == slot && Model.Unit(command.front) && Model.Unit(command.rear)
    ensures Consistent(Enter(Send(e, id, command), id, phase))
  {
    hide Owns, AccountedFor;
    var next := Enter(Send(e, id, command), id, phase);
    assert PhaseSound(e, id);
    forall i | 0 <= i < |next.queue| ensures ItemSound(next, i) {
      if i < |e.queue| { assert ItemSound(e, i); }
    }
    forall k | k in next.phases ensures PhaseSound(next, k) {
      if k != id { assert PhaseSound(e, k); }
    }
    hide ItemSound, PhaseSound;
    forall s, k | Owns(next.mixer, s, k) ensures AccountedFor(next, s, k) {
      assert AccountedFor(e, s, k);
      SendKeepsAccount(e, id, command, phase, slot, s, k);
    }
  }

  lemma SendKeepsAccount(e: Engine, id: nat, command: Model.Command, phase: Phase, slot: nat, s: nat, k: nat)
    requires In(e, id, Live(slot)) || (In(e, id, Stopping(slot)) && phase == Stopped(slot))
    requires phase == Live(slot) || phase == Stopping(slot) || phase == Stopped(slot)
    requires phase == Stopped(slot) ==> command == Model.Remove(slot)
    requires Owns(e.mixer, s, k) && AccountedFor(e, s, k)
    ensures AccountedFor(Enter(Send(e, id, command), id, phase), s, k)
  {
    hide Owns;
    var next := Enter(Send(e, id, command), id, phase);
    if k != id {
      AccountKept(e, next, s, k);
    } else {
      assert next.queue[|e.queue|] == Item(id, command);
    }
  }

  // -------------------------------------------------------- what is answered

  /** A caller gives up, or sets its flag. */
  lemma GivingUpKeepsConsistent(e: Engine, id: nat, phase: Phase)
    requires Consistent(e)
    requires (In(e, id, Waiting) && id !in e.replies && phase == TimedOut) || (In(e, id, TimedOut) && phase == CancelSet)
    ensures Consistent(Enter(e, id, phase))
    ensures forall k :: Orphan(Enter(e, id, phase), k) <==> Orphan(e, k)
  {
    hide Owns;
    var next := Enter(e, id, phase);
    forall i | 0 <= i < |e.queue| ensures ItemSound(next, i) {
      assert ItemSound(e, i);
    }
    forall k | k in next.phases ensures PhaseSound(next, k) {
      if k != id { assert PhaseSound(e, k); }
    }
    forall s, k | Owns(next.mixer, s, k) ensures AccountedFor(next, s, k) {
      assert AccountedFor(e, s, k);
      if k != id { AccountKept(e, next, s, k); }
    }
    assert In(e, id, Waiting) ==> forall s :: Owns(e.mixer, s, id) ==> AccountedFor(e, s, id);
  }

  lemma AnswerKeepsConsistent(e: Engine, id: nat)
    requires Consistent(e) && In(e, id, Waiting) && id in e.replies
    ensures Consistent(Answered(e, id))
    ensures forall k :: Orphan(Answered(e, id), k) <==> Orphan(e, k)
  {
    hide Owns;
    var next := Answered(e, id);
    assert PhaseSound(e, id);
    forall i | 0 <= i < |e.queue| ensures ItemSound(next, i) {
      assert ItemSound(e, i);
    }
    forall k | k in next.phases ensures PhaseSound(next, k) {
      if k != id { assert PhaseSound(e, k); }
    }
    forall s, k | Owns(next.mixer, s, k) ensures AccountedFor(next, s, k) {
      assert AccountedFor(e, s, k);
      if k != id { AccountKept(e, next, s, k); }
    }
  }

  /** The answer to an `Add` goes out, to a caller waiting or to none. */
  lemma ReplyKeepsConsistent(e: Engine)
    requires Consistent(e) && e.verdict.Some?
    ensures Consistent(Replied(e))
    ensures forall k :: Orphan(Replied(e), k) <==> Orphan(e, k) || AnswersTooLate(e, Reply, k)
  {
    hide Owns;
    var next, id := Replied(e), e.verdict.value.owner;
    forall i | 0 <= i < |e.queue| ensures ItemSound(next, i) {
      assert ItemSound(e, i);
    }
    forall k | k in next.phases ensures PhaseSound(next, k) {
      assert PhaseSound(e, k);
    }
    forall s, k | Owns(next.mixer, s, k) ensures AccountedFor(next, s, k) {
      assert AccountedFor(e, s, k);
      if k != id { AccountKept(e, next, s, k); }
    }
  }

  // --------------------------------------------------------- what is applied

  /** Where the rest of the queue stands once its head is gone: `gone` is the
      slot the head emptied, if it did. */
  lemma RestStaysSound(e: Engine, next: Engine, i: nat)
    requires Consistent(e) && e.queue != [] && next.queue == e.queue[1..] && i < |next.queue|
    requires next.phases == e.phases
    requires var owner := e.queue[i + 1].owner;
      && (owner in next.replies ==> owner in e.replies || owner == e.queue[0].owner)
      && (forall slot :: Owns(next.mixer, slot, owner) ==> Owns(e.mixer, slot, owner) || owner == e.queue[0].owner)
      && (forall slot :: Owns(e.mixer, slot, owner) ==> Owns(next.mixer, slot, owner) || (owner == e.queue[0].owner && e.queue[0].command.Remove?))
    ensures ItemSound(next, i)
  {
    assert ItemSound(e, i + 1);
    assert ItemSound(e, 0);
  }

  lemma RemoveStaysQueued(e: Engine, next: Engine, id: nat, slot: nat)
    requires e.queue != [] && next.queue == e.queue[1..] && RemoveQueued(e, id, slot)
    requires e.queue[0] != Item(id, Model.Remove(slot))
    ensures RemoveQueued(next, id, slot)
  {
    var i :| 0 <= i < |e.queue| && e.queue[i] == Item(id, Model.Remove(slot));
    assert next.queue[i - 1] == Item(id, Model.Remove(slot));
  }

  /** The head of a consistent queue acts on the very source its own `Add`
      created, and on no other. */
  lemma HeadHitsItsOwn(e: Engine)
    requires Consistent(e) && e.queue != [] && e.taken.Some? && !e.queue[0].command.Add?
    ensures var head := e.queue[0]; var slot := head.command.slot; var next := HeadApplied(e);
      && Owns(e.mixer, slot, head.owner)
      && (head.command.SetLevelsOf? ==>
            && Owns(next.mixer, slot, head.owner)
            && var levels := next.mixer.slots[slot].value.levels;
               levels.target == head.command.front && levels.rearTarget == head.command.rear && levels.remaining == e.mixer.fadeFrames)
      && (head.command.Remove? ==> next.mixer.slots[slot].None? && In(e, head.owner, Stopped(slot)))
      && |next.mixer.slots| == |e.mixer.slots|
      && (forall i :: 0 <= i < |e.mixer.slots| && i != slot ==> next.mixer.slots[i] == e.mixer.slots[i])
      && next.replies == e.replies && next.verdict.None?
  {
    assert ItemSound(e, 0);
  }

  lemma ApplyKeepsConsistent(e: Engine)
    requires Consistent(e) && e.queue != [] && e.taken.Some? && !e.queue[0].command.Add?
    ensures Consistent(HeadApplied(e))
    ensures forall k :: Orphan(HeadApplied(e), k) <==> Orphan(e, k)
  {
    hide ItemSound, HeadApplied;
    var next, head := HeadApplied(e), e.queue[0];
    HeadHitsItsOwn(e);
    HeadIsGone(e);
    forall slot, k ensures Owns(next.mixer, slot, k) <==> Owns(e.mixer, slot, k) && !(head.command.Remove? && head.command.slot == slot) {
    }
    forall i | 0 <= i < |next.queue| ensures ItemSound(next, i) {
      RestStaysSound(e, next, i);
    }
    forall k | k in next.phases ensures PhaseSound(next, k) {
      assert PhaseSound(e, k);
    }
    forall s, k | Owns(next.mixer, s, k) ensures AccountedFor(next, s, k) {
      assert AccountedFor(e, s, k);
      if RemoveQueued(e, k, s) { RemoveStaysQueued(e, next, k, s); }
    }
  }

  lemma HeadIsGone(e: Engine)
    requires e.mixer.fadeFrames > 0 && e.queue != [] && e.taken.Some?
    ensures var next := HeadApplied(e); next.queue == e.queue[1..] && next.phases == e.phases && next.taken.None? && next.mixer.fadeFrames == e.mixer.fadeFrames
  {
  }

  /** What an `Add` at the head does: the ring goes into the first free slot,
      or nowhere. */
  lemma AddTakesFreeSlot(e: Engine)
    requires Consistent(e) && e.queue != [] && e.taken.Some? && e.queue[0].command.Add?
    ensures var next := HeadApplied(e); var id := e.queue[0].owner; var free := Model.FirstFree(e.mixer.slots);
      && (forall slot: nat, k: nat :: Owns(next.mixer, slot, k) <==>
            Owns(e.mixer, slot, k) || (k == id && e.taken == Some(false) && free == Some(slot)))
      && (forall i :: 0 <= i < |next.mixer.slots| && next.mixer.slots[i].Some? ==> next.mixer.slots[i].value.feed.Stream?)
      && next.replies == e.replies && Answering(next, id)
      && (next.verdict.value.result.Ok? <==> e.taken == Some(false) && free.Some?)
      && (next.verdict.value.result.Ok? ==> next.verdict.value.result == Ok(free.value))
  {
    assert ItemSound(e, 0);
    var next, id, free := HeadApplied(e), e.queue[0].owner, Model.FirstFree(e.mixer.slots);
    if e.taken.value || free.None? {
      assert next.mixer == e.mixer;
    } else {
      var slots := next.mixer.slots;
      assert slots == e.mixer.slots[free.value := slots[free.value]];
      forall slot: nat, k: nat ensures Owns(next.mixer, slot, k) <==> Owns(e.mixer, slot, k) || (k == id && slot == free.value) {
      }
    }
  }

  lemma {:induction false} AddKeepsConsistent(e: Engine)
    requires Consistent(e) && e.queue != [] && e.taken.Some? && e.queue[0].command.Add?
    ensures Consistent(HeadApplied(e))
    ensures forall k :: Orphan(HeadApplied(e), k) <==> Orphan(e, k)
  {
    hide HeadApplied, Owns;
    var next, id := HeadApplied(e), e.queue[0].owner;
    AddTakesFreeSlot(e);
    HeadIsGone(e);
    assert ItemSound(e, 0);
    OwnersAreKnown(e);
    AddRestSound(e);
    forall k | k in next.phases ensures PhaseSound(next, k) {
      assert PhaseSound(e, k);
    }
    forall s, k | Owns(next.mixer, s, k) ensures AccountedFor(next, s, k) {
      if k != id {
        assert AccountedFor(e, s, k);
        if RemoveQueued(e, k, s) { RemoveStaysQueued(e, next, k, s); }
      }
    }
    AddOrphans(e);
  }

  lemma {:induction false} AddRestSound(e: Engine)
    requires Consistent(e) && e.queue != [] && e.taken.Some? && e.queue[0].command.Add?
    ensures forall i :: 0 <= i < |HeadApplied(e).queue| ==> ItemSound(HeadApplied(e), i)
  {
    hide HeadApplied, Owns;
    AddTakesFreeSlot(e);
    HeadIsGone(e);
    assert ItemSound(e, 0);
    forall i | 0 <= i < |HeadApplied(e).queue| ensures ItemSound(HeadApplied(e), i) {
      RestStaysSound(e, HeadApplied(e), i);
    }
  }

  lemma {:induction false} AddOrphans(e: Engine)
    requires Consistent(e) && e.queue != [] && e.taken.Some? && e.queue[0].command.Add?
    ensures forall k :: Orphan(HeadApplied(e), k) <==> Orphan(e, k)
  {
    hide HeadApplied, Owns;
    var next, id := HeadApplied(e), e.queue[0].owner;
    AddTakesFreeSlot(e);
    HeadIsGone(e);
    assert ItemSound(e, 0);
    forall k ensures Orphan(next, k) <==> Orphan(e, k) {
      if Orphan(e, k) {
        var slot :| Owns(e.mixer, slot, k);
        assert Owns(next.mixer, slot, k);
      }
    }
  }

  // -------------------------------------------------------------------- runs

  lemma {:induction false} StepKeepsConsistent(e: Engine, step: Step)
    requires Consistent(e)
    ensures Consistent(Next(e, step))
    ensures forall id :: Orphan(Next(e, step), id) <==> Orphan(e, id) || Leaves(e, step, id)
  {
    if step.Apply? {
      ApplyStep(e);
    } else if step.Reply? {
      ReplyStep(e);
    } else if step.Output? || step.Refill? {
      PlayStep(e, step);
    } else if step.Receive? || step.TimeOut? || step.Cancel? || step.Take? {
      CallerStep(e, step);
    } else if step.Abandon? {
      AbandonStep(e, step.id);
    } else {
      SendStep(e, step);
    }
  }

  lemma {:induction false} ApplyStep(e: Engine)
    requires Consistent(e)
    ensures Consistent(Next(e, Apply))
    ensures forall id :: Orphan(Next(e, Apply), id) <==> Orphan(e, id)
  {
    hide Consistent, HeadApplied, Orphan;
    if e.taken.Some? && e.queue != [] {
      if e.queue[0].command.Add? {
        AddKeepsConsistent(e);
      } else {
        ApplyKeepsConsistent(e);
      }
    }
  }

  lemma {:induction false} ReplyStep(e: Engine)
    requires Consistent(e)
    ensures Consistent(Next(e, Reply))
    ensures forall id :: Orphan(Next(e, Reply), id) <==> Orphan(e, id) || AnswersTooLate(e, Reply, id)
  {
    hide Consistent, Orphan;
    if e.verdict.Some? {
      ReplyKeepsConsistent(e);
    }
  }

  lemma {:induction false} PlayStep(e: Engine, step: Step)
    requires Consistent(e) && (step.Output? || step.Refill?)
    ensures Consistent(Next(e, step))
    ensures forall id :: Orphan(Next(e, step), id) <==> Orphan(e, id)
  {
    var after := Next(e, step).mixer;
    if step.Output? {
      PlayingMovesNothing(e.mixer, step.frames, step.withRear);
    }
    assert forall i :: 0 <= i < |after.slots| ==> SameRing(e.mixer.slots[i], after.slots[i]);
    hide Consistent, Orphan, SameRing;
    SameRingsKeepConsistent(e, after);
    assert Next(e, step) == e.(mixer := after);
  }

  lemma {:induction false} CallerStep(e: Engine, step: Step)
    requires Consistent(e) && (step.Receive? || step.TimeOut? || step.Cancel? || step.Take?)
    ensures Consistent(Next(e, step))
    ensures forall id :: Orphan(Next(e, step), id) <==> Orphan(e, id)
  {
    if step.Take? {
      if e.verdict.None? { TakeKeepsConsistent(e, Next(e, step).taken); }
    } else {
      hide Consistent, Orphan, Answered, Enter;
      var id := step.id;
      if step.Receive? {
        if In(e, id, Waiting) && id in e.replies { AnswerKeepsConsistent(e, id); }
      } else if step.TimeOut? {
        if In(e, id, Waiting) && id !in e.replies { GivingUpKeepsConsistent(e, id, TimedOut); }
      } else if In(e, id, TimedOut) {
        GivingUpKeepsConsistent(e, id, CancelSet);
      }
    }
  }

  /** A live playback dropped: its source stays, its commands stay its own. */
  lemma {:induction false} AbandonStep(e: Engine, id: nat)
    requires Consistent(e)
    ensures Consistent(Next(e, Abandon(id)))
    ensures forall k :: Orphan(Next(e, Abandon(id)), k) <==> Orphan(e, k) || DropsLive(e, Abandon(id), k)
  {
    if IsLive(e, id) {
      AbandonKeepsConsistent(e, id, e.phases[id].slot);
    }
  }

  lemma AbandonKeepsConsistent(e: Engine, id: nat, slot: nat)
    requires Consistent(e) && In(e, id, Live(slot))
    ensures Consistent(Enter(e, id, Abandoned(slot)))
    ensures forall k :: Orphan(Enter(e, id, Abandoned(slot)), k) <==> Orphan(e, k) || k == id
  {
    hide Owns;
    var next := Enter(e, id, Abandoned(slot));
    assert PhaseSound(e, id);
    forall i | 0 <= i < |e.queue| ensures ItemSound(next, i) {
      assert ItemSound(e, i);
    }
    forall k | k in next.phases ensures PhaseSound(next, k) {
      if k != id { assert PhaseSound(e, k); }
    }
    forall s, k | Owns(next.mixer, s, k) ensures AccountedFor(next, s, k) {
      assert AccountedFor(e, s, k);
      if k != id { AccountKept(e, next, s, k); }
    }
    assert Owns(next.mixer, slot, id);
  }

  lemma TakeKeepsConsistent(e: Engine, taken: Option<bool>)
    requires Consistent(e) && e.verdict.None?
    ensures Consistent(e.(taken := taken))
    ensures forall id :: Orphan(e.(taken := taken), id) <==> Orphan(e, id)
  {
    var next := e.(taken := taken);
    forall i | 0 <= i < |e.queue| ensures ItemSound(next, i) {
      assert ItemSound(e, i);
    }
    forall id | id in e.phases ensures PhaseSound(next, id) {
      assert PhaseSound(e, id);
    }
    forall slot, id | Owns(next.mixer, slot, id) ensures AccountedFor(next, slot, id) {
      AccountKept(e, next, slot, id);
    }
  }

  lemma {:induction false} SendStep(e: Engine, step: Step)
    requires Consistent(e) && (step.Start? || step.SetLevels? || step.BeginStop? || step.EndStop?)
    ensures Consistent(Next(e, step))
    ensures forall id :: Orphan(Next(e, step), id) <==> Orphan(e, id)
  {
    hide Consistent, Owns;
    var id := step.id;
    if step.Start? {
      StartStep(e, id, step.queued);
    } else if step.SetLevels? {
      if IsLive(e, id) {
        var slot := e.phases[id].slot;
        SendKeepsConsistent(e, id, Model.SetLevelsOf(slot, ToUnit(step.front), ToUnit(step.rear)), Live(slot), slot);
        assert e.phases[id := Live(slot)] == e.phases;
      }
    } else if step.BeginStop? {
      if IsLive(e, id) {
        var slot := e.phases[id].slot;
        SendKeepsConsistent(e, id, Model.SetLevelsOf(slot, 0.0, 0.0), Stopping(slot), slot);
      }
    } else if IsStopping(e, id) {
      var slot := e.phases[id].slot;
      SendKeepsConsistent(e, id, Model.Remove(slot), Stopped(slot), slot);
    }
  }

  lemma StartStep(e: Engine, id: nat, queued: seq<real>)
    requires Consistent(e)
    ensures Consistent(Next(e, Start(id, queued)))
    ensures forall k :: Orphan(Next(e, Start(id, queued)), k) <==> Orphan(e, k)
  {
    hide Consistent;
    if id !in e.phases {
      StartKeepsConsistent(e, id, queued);
      OwnersAreKnown(e);
    }
  }

  /** In every run, whoever starts, gives up, sends or plays when. */
  lemma {:induction false} AlwaysConsistent(sampleRate: nat, steps: seq<Step>)
    ensures Consistent(Run(sampleRate, steps))
    decreases |steps|
  {
    hide Consistent;
    if steps == [] {
      OpenedIsConsistent(sampleRate);
    } else {
      AlwaysConsistent(sampleRate, steps[..|steps| - 1]);
      StepKeepsConsistent(Run(sampleRate, steps[..|steps| - 1]), steps[|steps| - 1]);
    }
  }

  lemma OpenedIsConsistent(sampleRate: nat)
    ensures Consistent(Opened(sampleRate))
  {
  }

  /** The main result: in every run, a command of a playback acts on the source
      its own `Add` created, whatever slot numbers were reused before. */
  lemma {:induction false} CommandsHitTheirOwn(sampleRate: nat, steps: seq<Step>)
    ensures var e := Run(sampleRate, steps);
      e.queue != [] && e.taken.Some? && !e.queue[0].command.Add? ==>
        (var head := e.queue[0]; var slot := head.command.slot; var next := Next(e, Apply);
         && Owns(e.mixer, slot, head.owner)
         && (head.command.SetLevelsOf? ==>
               && Owns(next.mixer, slot, head.owner)
               && var levels := next.mixer.slots[slot].value.levels;
                  levels.target == head.command.front && levels.rearTarget == head.command.rear && levels.remaining == e.mixer.fadeFrames)
         && (head.command.Remove? ==> next.mixer.slots[slot].None? && In(e, head.owner, Stopped(slot)))
         && |next.mixer.slots| == |e.mixer.slots|
         && (forall i :: 0 <= i < |e.mixer.slots| && i != slot ==> next.mixer.slots[i] == e.mixer.slots[i]))
  {
    hide Consistent, HeadApplied, Owns;
    AlwaysConsistent(sampleRate, steps);
    var e := Run(sampleRate, steps);
    if e.queue != [] && e.taken.Some? && !e.queue[0].command.Add? {
      HeadHitsItsOwn(e);
    }
  }

  predicate LeftAt(sampleRate: nat, steps: seq<Step>, k: nat, id: nat) {
    k < |steps| && Leaves(Run(sampleRate, steps[..k]), steps[k], id)
  }

  lemma {:induction false} LeftOneMore(sampleRate: nat, steps: seq<Step>, id: nat)
    requires steps != []
    ensures var n := |steps| - 1;
      (exists k :: LeftAt(sampleRate, steps, k, id)) <==>
        (exists k :: LeftAt(sampleRate, steps[..n], k, id)) || Leaves(Run(sampleRate, steps[..n]), steps[n], id)
  {
    hide Run, Leaves;
    var n := |steps| - 1;
    forall k: nat | k < n ensures LeftAt(sampleRate, steps[..n], k, id) <==> LeftAt(sampleRate, steps, k, id) {
      assert steps[..n][..k] == steps[..k];
    }
    if Leaves(Run(sampleRate, steps[..n]), steps[n], id) {
      assert LeftAt(sampleRate, steps, n, id);
    }
  }

  /** A source is left in its slot with nobody to remove it exactly when some
      step answered its caller too late or dropped its playback while live. */
  lemma {:induction false} OrphanExactly(sampleRate: nat, steps: seq<Step>, id: nat)
    ensures Orphan(Run(sampleRate, steps), id) <==> exists k :: LeftAt(sampleRate, steps, k, id)
    decreases |steps|
  {
    hide Consistent, Leaves, Next;
    if steps == [] {
      assert Opened(sampleRate).phases == map[];
    } else {
      var before := steps[..|steps| - 1];
      OrphanExactly(sampleRate, before, id);
      AlwaysConsistent(sampleRate, before);
      StepKeepsConsistent(Run(sampleRate, before), steps[|steps| - 1]);
      LeftOneMore(sampleRate, steps, id);
    }
  }

  /** Once every playback is stopped or given up and nothing is left to do, the
      only slots still taken are those of orphans. */
  lemma {:induction false} QuietLeavesOnlyOrphans(sampleRate: nat, steps: seq<Step>, slot: nat)
    requires var e := Run(sampleRate, steps);
      && e.queue == [] && e.verdict.None? && slot < |e.mixer.slots| && e.mixer.slots[slot].Some?
      && forall id :: id in e.phases ==> e.phases[id].Stopped? || e.phases[id].Refused? || e.phases[id].CancelSet? || e.phases[id].Abandoned?
    ensures exists id :: Owns(Run(sampleRate, steps).mixer, slot, id) && Orphan(Run(sampleRate, steps), id)
  {
    AlwaysConsistent(sampleRate, steps);
    var e := Run(sampleRate, steps);
    var id := e.mixer.slots[slot].value.feed.id;
    assert Owns(e.mixer, slot, id);
    assert AccountedFor(e, slot, id);
  }

  lemma {:induction false} OneStepMore(sampleRate: nat, steps: seq<Step>, step: Step)
    ensures Run(sampleRate, steps + [step]) == Next(Run(sampleRate, steps), step)
  {
    assert (steps + [step])[..|steps|] == steps;
  }

  /** The engine has taken the `Add` of its first start, at whose flag it has
      looked. */
  lemma {:induction false} FirstIsTaken(sampleRate: nat)
    ensures var e := Run(sampleRate, [] + [Start(0, [])] + [Take]);
      && e.taken == Some(false) && e.queue == [Item(0, Model.Add(0, []))] && e.phases == map[0 := Waiting] && e.replies == map[]
      && Model.FirstFree(e.mixer.slots) == Some(0)
  {
    hide Opened, Model.FirstFree;
    OpenedIsFree(sampleRate);
    OneStepMore(sampleRate, [], Start(0, []));
    OneStepMore(sampleRate, [] + [Start(0, [])], Take);
    hide Run;
  }

  lemma OpenedIsFree(sampleRate: nat)
    ensures var e := Opened(sampleRate);
      && e.taken.None? && e.verdict.None? && e.queue == [] && e.phases == map[] && e.replies == map[] && Model.FirstFree(e.mixer.slots) == Some(0)
  {
  }

  /** The race: the callback has taken the `Add` and seen no flag, the caller
      gives up, and the source is added all the same. */
  lemma {:induction false} AnOrphanIsPossible(sampleRate: nat)
    ensures Orphan(Run(sampleRate, [] + [Start(0, [])] + [Take] + [TimeOut(0)] + [Apply] + [Reply]), 0)
  {
    hide Run, Consistent;
    var late := [] + [Start(0, [])] + [Take] + [TimeOut(0)];
    FirstIsTaken(sampleRate);
    OneStepMore(sampleRate, [] + [Start(0, [])] + [Take], TimeOut(0));
    AlwaysConsistent(sampleRate, late);
    FirstIsAnswered(sampleRate, late);
  }

  /** Or it is added first, and the caller gives up before the answer. */
  lemma {:induction false} AddedBeforeGivingUp(sampleRate: nat)
    ensures Orphan(Run(sampleRate, [] + [Start(0, [])] + [Take] + [Apply] + [TimeOut(0)] + [Reply]), 0)
  {
    hide Run, Consistent;
    var taken := [] + [Start(0, [])] + [Take];
    var added := taken + [Apply];
    FirstIsTaken(sampleRate);
    FirstIsAdded(sampleRate, taken);
    OneStepMore(sampleRate, added, TimeOut(0));
    OneStepMore(sampleRate, added + [TimeOut(0)], Reply);
    AlwaysConsistent(sampleRate, added + [TimeOut(0)]);
    StepKeepsConsistent(Run(sampleRate, added + [TimeOut(0)]), Reply);
  }

  lemma {:induction false} FirstIsAdded(sampleRate: nat, steps: seq<Step>)
    requires var e := Run(sampleRate, steps);
      && e.taken == Some(false) && e.queue == [Item(0, Model.Add(0, []))] && Model.FirstFree(e.mixer.slots) == Some(0)
    ensures var e, next := Run(sampleRate, steps), Run(sampleRate, steps + [Apply]);
      next.verdict == Some(Verdict(0, Ok(0))) && next.phases == e.phases && next.replies == e.replies
  {
    hide Run, Consistent, HeadApplied;
    AlwaysConsistent(sampleRate, steps);
    AddTakesFreeSlot(Run(sampleRate, steps));
    HeadIsGone(Run(sampleRate, steps));
    OneStepMore(sampleRate, steps, Apply);
  }

  lemma {:induction false} FirstIsAnswered(sampleRate: nat, steps: seq<Step>)
    requires var e := Run(sampleRate, steps);
      && e.taken == Some(false) && e.queue == [Item(0, Model.Add(0, []))] && Model.FirstFree(e.mixer.slots) == Some(0)
      && In(e, 0, TimedOut)
    ensures Orphan(Run(sampleRate, steps + [Apply] + [Reply]), 0)
  {
    hide Run, Consistent;
    FirstIsAdded(sampleRate, steps);
    OneStepMore(sampleRate, steps + [Apply], Reply);
    AlwaysConsistent(sampleRate, steps + [Apply]);
    StepKeepsConsistent(Run(sampleRate, steps + [Apply]), Reply);
  }

  /** The other way: the start succeeds and its playback is dropped. */
  lemma {:induction false} AnAbandonedOneStays(sampleRate: nat)
    ensures Orphan(Run(sampleRate, [] + [Start(0, [])] + [Take] + [Apply] + [Reply] + [Receive(0)] + [Abandon(0)]), 0)
  {
    hide Run, Consistent;
    var taken := [] + [Start(0, [])] + [Take];
    var received := taken + [Apply] + [Reply] + [Receive(0)];
    FirstIsTaken(sampleRate);
    FirstIsAdded(sampleRate, taken);
    OneStepMore(sampleRate, taken + [Apply], Reply);
    OneStepMore(sampleRate, taken + [Apply] + [Reply], Receive(0));
    OneStepMore(sampleRate, received, Abandon(0));
    AlwaysConsistent(sampleRate, received);
    StepKeepsConsistent(Run(sampleRate, received), Abandon(0));
  }
}
