/** The UART rings of `firmware/powersupply/serial.c`: a main program and two
    interrupt handlers over shared buffers of 128 bytes. */
module SerialModel {
  import opened Wrappers

  const SIZE: nat := 128

  /** `& (SIZE - 1)` of what is at most twice the mask. */
  function Wrap(i: nat): (r: nat)
    requires i < 2 * SIZE
    ensures r < SIZE
  {
    if i < SIZE then i else i - SIZE
  }

  type Slots = s: seq<Byte> | |s| == SIZE witness seq(SIZE, _ => 0)

  /** `n` bytes from `start` on. */
  function Stored(buf: Slots, start: nat, n: nat): (r: seq<Byte>)
    requires start < SIZE && n <= SIZE
    ensures |r| == n
  {
    seq(n, k requires 0 <= k < n => buf[Wrap(start + k)])
  }

  // ---------------------------------------------------------------- sending

  /** `_tx` and the hardware: `udr` is the data register, `enabled` its
      interrupt. `cnt` counts the byte in flight too. */
  datatype Tx = Tx(head: nat, tail: nat, cnt: nat, buf: Slots, udr: Option<Byte>, enabled: bool)

  /** Fields in range. */
  predicate InRange(t: Tx) {
    t.head < SIZE && t.tail < SIZE && t.cnt <= SIZE
  }

  /** The atomic block of `SendByte`. */
  function Commit(t: Tx, data: Byte): Tx
    requires InRange(t)
  {
    if t.cnt > 0 then t.(buf := t.buf[t.head := data], head := Wrap(t.head + 1), cnt := t.cnt + 1)
    else t.(enabled := true, udr := Some(data), cnt := 1)
  }

  /** `USART_UDRE_vect`. */
  function Udre(t: Tx): Tx
    requires InRange(t)
  {
    if t.cnt > 1 then t.(cnt := t.cnt - 1, udr := Some(t.buf[t.tail]), tail := Wrap(t.tail + 1))
    else if t.cnt == 1 then t.(cnt := 0)
    else t.(enabled := false, head := 0, tail := 0)
  }

  /** The sender: `pending` is the byte of a `SendByte` that found room but has
      not stored it yet, `sent` all bytes stored, `wire` those gone out. */
  datatype Line = Line(tx: Tx, pending: Option<Byte>, wire: seq<Byte>, sent: seq<Byte>)

  datatype TxStep =
    | FindRoom(data: Byte)   // the loop of SendByte ends with room
    | Store                  // its atomic block
    | RegisterEmpty          // the interrupt
    | ShiftOut               // the hardware moves UDR0 on

  function TxNext(l: Line, step: TxStep): (r: Line)
    requires InRange(l.tx)
  {
    match step
    case FindRoom(data) => if l.pending.None? && l.tx.cnt < SIZE then l.(pending := Some(data)) else l
    case Store =>
      if l.pending.None? then l
      else l.(tx := Commit(l.tx, l.pending.value), pending := None, sent := l.sent + [l.pending.value])
    case RegisterEmpty => if l.tx.enabled && l.tx.udr.None? then l.(tx := Udre(l.tx)) else l
    case ShiftOut => if l.tx.udr.Some? then l.(tx := l.tx.(udr := None), wire := l.wire + [l.tx.udr.value]) else l
  }

  function InRing(t: Tx): (r: nat) {
    if t.cnt == 0 then 0 else t.cnt - 1
  }

  function InRegister(t: Tx): seq<Byte> {
    if t.udr.Some? then [t.udr.value] else []
  }

  /** Nothing lost, nothing twice, in order: what was sent is on the wire, in
      the register or in the ring. */
  predicate LineSound(l: Line) {
    && InRange(l.tx)
    && l.tx.head == Wrap(l.tx.tail + InRing(l.tx))
    && (l.tx.udr.Some? ==> l.tx.cnt > 0)
    && (l.tx.cnt > 0 ==> l.tx.enabled)
    && (l.pending.Some? ==> l.tx.cnt < SIZE)
    && l.sent == l.wire + InRegister(l.tx) + Stored(l.tx.buf, l.tx.tail, InRing(l.tx))
  }

  function Idle(): Line {
    Line(Tx(0, 0, 0, seq(SIZE, _ => 0), None, false), None, [], [])
  }

  // -------------------------------------------------------------- receiving

  datatype Rx = Rx(head: nat, tail: nat, cnt: nat, buf: Slots)

  /** `USART_RX_vect`. */
  function Receive(r: Rx, data: Byte): Rx
    requires r.head < SIZE
  {
    var stored := r.(buf := r.buf[r.head := data]);
    if Wrap(r.head + 1) == r.tail then stored else stored.(head := Wrap(r.head + 1), cnt := r.cnt + 1)
  }

  /** The atomic block of `GetDataIn`. */
  function Take(r: Rx): (Rx, Byte)
    requires r.tail < SIZE
  {
    if r.cnt > 0 then (r.(tail := Wrap(r.tail + 1), cnt := r.cnt - 1), r.buf[r.tail]) else (r, 0)
  }

  predicate RxSound(r: Rx) {
    r.head < SIZE && r.tail < SIZE && r.cnt < SIZE && r.head == Wrap(r.tail + r.cnt)
  }

  /** The bytes waiting, oldest first. */
  function Waiting(r: Rx): seq<Byte>
    requires RxSound(r)
  {
    Stored(r.buf, r.tail, r.cnt)
  }

  /** `GetDataIn` takes only once there is something. */
  datatype RxStep = Arrives(data: Byte) | Get

  function RxNext(r: Rx, step: RxStep): (Rx, seq<Byte>)
    requires RxSound(r)
  {
    if step.Arrives? then (Receive(r, step.data), [])
    else if r.cnt == 0 then (r, [])
    else (Take(r).0, [Take(r).1])
  }

  /** A queue of at most 127 bytes that turns away what comes when it is full. */
  function QueueNext(queue: seq<Byte>, step: RxStep): (seq<Byte>, seq<Byte>) {
    if step.Arrives? then (if |queue| < 127 then queue + [step.data] else queue, [])
    else if queue == [] then (queue, [])
    else (queue[1..], [queue[0]])
  }

  /** The bytes still waiting and those handed out. */
  function QueueRun(steps: seq<RxStep>): (seq<Byte>, seq<Byte>)
    decreases |steps|
  {
    if steps == [] then ([], [])
    else
      var before := QueueRun(steps[..|steps| - 1]);
      var last := QueueNext(before.0, steps[|steps| - 1]);
      (last.0, before.1 + last.1)
  }
}

module SerialProofs {
  import opened Wrappers
  import opened SerialModel

  // ---------------------------------------------------------------- sending

  lemma StoreKeepsSound(t: Tx, data: Byte)
    requires InRange(t) && 0 < t.cnt < SIZE && t.head == Wrap(t.tail + InRing(t))
    ensures Stored(Commit(t, data).buf, t.tail, InRing(t) + 1) == Stored(t.buf, t.tail, InRing(t)) + [data]
  {
    var n, buf := InRing(t), Commit(t, data).buf;
    forall k | 0 <= k < n ensures Stored(buf, t.tail, n + 1)[k] == Stored(t.buf, t.tail, n)[k] {
      assert Wrap(t.tail + k) != t.head;
    }
  }

  lemma FirstOfStored(buf: Slots, start: nat, n: nat)
    requires start < SIZE && 0 < n <= SIZE
    ensures Stored(buf, start, n) == [buf[start]] + Stored(buf, Wrap(start + 1), n - 1)
  {
    var first, rest := buf[start], Stored(buf, Wrap(start + 1), n - 1);
    var all := [first] + rest;
    forall k | 0 <= k < n ensures Stored(buf, start, n)[k] == all[k] {
      if k == 0 {
        assert Stored(buf, start, n)[0] == buf[Wrap(start + 0)] == first;
      } else {
        assert all[k] == rest[k - 1] == buf[Wrap(Wrap(start + 1) + (k - 1))];
        assert Stored(buf, start, n)[k] == buf[Wrap(start + k)];
      }
    }
  }

  lemma {:induction false} TxNextKeepsSound(l: Line, step: TxStep)
    requires LineSound(l)
    ensures LineSound(TxNext(l, step))
    ensures step == Store && l.pending.Some? && l.tx.cnt == 0 ==> l.tx.udr.None?
  {
    hide Stored;
    var t := l.tx;
    if step == Store && l.pending.Some? {
      if t.cnt > 0 {
        StoreKeepsSound(t, l.pending.value);
      } else {
        assert Stored(t.buf, t.tail, 0) == [];
      }
    } else if step == RegisterEmpty && t.enabled && t.udr.None? {
      if t.cnt > 1 {
        FirstOfStored(t.buf, t.tail, t.cnt - 1);
      } else {
        assert Stored(t.buf, t.tail, 0) == [] == Stored(t.buf, 0, 0);
      }
    }
  }

  /** A byte is sent whenever there is room for it, and once. */
  lemma {:induction false} RoomSends(l: Line, data: Byte)
    requires LineSound(l) && l.pending.None? && l.tx.cnt < 128
    ensures LineSound(TxNext(l, FindRoom(data)))
    ensures var r := TxNext(TxNext(l, FindRoom(data)), Store);
      r.sent == l.sent + [data] && r.wire == l.wire && r.pending.None? && r.tx.cnt == l.tx.cnt + 1
    ensures TxNext(TxNext(TxNext(l, FindRoom(data)), Store), Store) == TxNext(TxNext(l, FindRoom(data)), Store)
  {
    hide Stored;
    TxNextKeepsSound(l, FindRoom(data));
  }

  function TxRun(steps: seq<TxStep>): (l: Line)
    ensures LineSound(l)
    decreases |steps|
  {
    if steps == [] then Idle()
    else
      TxNextKeepsSound(TxRun(steps[..|steps| - 1]), steps[|steps| - 1]);
      TxNext(TxRun(steps[..|steps| - 1]), steps[|steps| - 1])
  }

  /** In every interleaving, what went out is the beginning of what was sent,
      and no byte is put over one that is still in the register. */
  lemma {:induction false} WireIsInOrder(steps: seq<TxStep>)
    ensures var l := TxRun(steps);
      && l.wire <= l.sent
      && |l.sent| - |l.wire| == |InRegister(l.tx)| + InRing(l.tx)
      && (l.pending.Some? && l.tx.cnt == 0 ==> l.tx.udr.None?)
      && (l.tx.udr.Some? || l.tx.cnt > 0 ==> l.tx.enabled)
  {
    hide Stored, TxRun;
  }

  /** `rounds` times: the register shifts out, its interrupt comes. */
  function Drain(l: Line, rounds: nat): (r: Line)
    requires LineSound(l)
    ensures LineSound(r)
    decreases rounds
  {
    if rounds == 0 then l
    else
      TxNextKeepsSound(l, ShiftOut);
      TxNextKeepsSound(TxNext(l, ShiftOut), RegisterEmpty);
      Drain(TxNext(TxNext(l, ShiftOut), RegisterEmpty), rounds - 1)
  }

  /** With nothing more sent, the interrupts alone bring every byte out, one
      round for each that is counted, and one more switches them off. */
  lemma {:induction false} DrainSendsAll(l: Line, rounds: nat)
    requires LineSound(l) && rounds >= l.tx.cnt
    ensures var r := Drain(l, rounds);
      r.sent == l.sent == r.wire && r.tx.cnt == 0 && r.tx.udr.None? && (rounds > l.tx.cnt ==> !r.tx.enabled)
    decreases rounds
  {
    hide Stored;
    if rounds > 0 {
      TxNextKeepsSound(l, ShiftOut);
      TxNextKeepsSound(TxNext(l, ShiftOut), RegisterEmpty);
      DrainSendsAll(TxNext(TxNext(l, ShiftOut), RegisterEmpty), rounds - 1);
    }
  }

  // -------------------------------------------------------------- receiving

  lemma {:induction false} ReceiveStores(r: Rx, data: Byte)
    requires RxSound(r)
    ensures RxSound(Receive(r, data))
    ensures Waiting(Receive(r, data)) == if r.cnt < 127 then Waiting(r) + [data] else Waiting(r)
  {
    var after := Receive(r, data);
    forall k | 0 <= k < r.cnt ensures Waiting(after)[k] == Waiting(r)[k] {
      assert Wrap(r.tail + k) != r.head;
    }
  }

  lemma {:induction false} TakeGivesOldest(r: Rx)
    requires RxSound(r) && r.cnt > 0
    ensures RxSound(Take(r).0) && Waiting(r) == [Take(r).1] + Waiting(Take(r).0)
  {
    FirstOfStored(r.buf, r.tail, r.cnt);
  }

  lemma {:induction false} RxNextIsQueue(r: Rx, step: RxStep)
    requires RxSound(r)
    ensures RxSound(RxNext(r, step).0)
    ensures (Waiting(RxNext(r, step).0), RxNext(r, step).1) == QueueNext(Waiting(r), step)
  {
    hide Stored;
    if step.Arrives? {
      ReceiveStores(r, step.data);
    } else if r.cnt > 0 {
      TakeGivesOldest(r);
    }
  }

  /** The ring and the bytes `GetDataIn` has returned. */
  function RxRun(steps: seq<RxStep>): (r: (Rx, seq<Byte>))
    ensures RxSound(r.0)
    decreases |steps|
  {
    if steps == [] then (Rx(0, 0, 0, seq(SIZE, _ => 0)), [])
    else
      var before := RxRun(steps[..|steps| - 1]);
      RxNextIsQueue(before.0, steps[|steps| - 1]);
      var last := RxNext(before.0, steps[|steps| - 1]);
      (last.0, before.1 + last.1)
  }

  /** The receive ring is a queue of 127 bytes that drops only the newest. */
  lemma {:induction false} RxIsQueue(steps: seq<RxStep>)
    ensures (Waiting(RxRun(steps).0), RxRun(steps).1) == QueueRun(steps)
    decreases |steps|
  {
    hide Stored, QueueNext, RxNext;
    if steps == [] {
      assert Waiting(RxRun(steps).0) == [];
    } else {
      RxIsQueue(steps[..|steps| - 1]);
      RxNextIsQueue(RxRun(steps[..|steps| - 1]).0, steps[|steps| - 1]);
    }
  }

  /** Which of the arrivals were kept. */
  function Kept(steps: seq<RxStep>): seq<Byte>
    decreases |steps|
  {
    if steps == [] then []
    else
      var before, last := steps[..|steps| - 1], steps[|steps| - 1];
      Kept(before) + if last.Arrives? && |QueueRun(before).0| < 127 then [last.data] else []
  }

  /** Every byte kept comes out once and in order: handed out or waiting, and
      one is turned away only while 127 wait. */
  lemma {:induction false} KeptComesOut(steps: seq<RxStep>)
    ensures RxRun(steps).1 + Waiting(RxRun(steps).0) == Kept(steps) && |Waiting(RxRun(steps).0)| <= 127
    decreases |steps|
  {
    hide RxRun, Waiting;
    RxIsQueue(steps);
    QueueKeeps(steps);
  }

  lemma {:induction false} QueueKeeps(steps: seq<RxStep>)
    ensures QueueRun(steps).1 + QueueRun(steps).0 == Kept(steps) && |QueueRun(steps).0| <= 127
    decreases |steps|
  {
    if steps != [] {
      var before := steps[..|steps| - 1];
      QueueKeeps(before);
    }
  }
}
