/** The handlers and functions of `firmware/powersupply/serial.c`, on buffers
    changed in place. */
module SerialPorts {
  import opened Wrappers
  import opened SerialModel
  import Proofs = SerialProofs

  /** What the hardware does while the main program waits. */
  datatype Event = RegisterEmpties | ByteShifted | ByteArrives(data: Byte)

  /** The bytes that arrive, in order. */
  function Arrived(events: seq<Event>): seq<Byte> {
    if events == [] then []
    else (if events[0].ByteArrives? then [events[0].data] else []) + Arrived(events[1..])
  }

  /** What arrives in the first of the delays in which anything does. */
  function InTime(delays: seq<seq<Event>>): seq<Byte> {
    if delays == [] then [] else if Arrived(delays[0]) != [] then Arrived(delays[0]) else InTime(delays[1..])
  }

  /** What the ring has room for. */
  function Fitting(bytes: seq<Byte>): seq<Byte> {
    if |bytes| <= 127 then bytes else bytes[..127]
  }

  /** The sender after what the hardware does on its own. */
  function Drained(t: Tx, events: seq<Event>): (r: Tx)
    requires InRange(t)
    ensures InRange(r) && r.cnt <= t.cnt
    decreases |events|
  {
    if events == [] then t else DrainedOnce(Drained(t, events[..|events| - 1]), events[|events| - 1])
  }

  function DrainedOnce(t: Tx, event: Event): (r: Tx)
    requires InRange(t)
    ensures InRange(r) && r.cnt <= t.cnt
  {
    if event.RegisterEmpties? && t.enabled && t.udr.None? then Udre(t)
    else if event.ByteShifted? then t.(udr := None)
    else t
  }

  /** And after the first `n` delays. */
  function DrainedFor(t: Tx, delays: seq<seq<Event>>, n: nat): (r: Tx)
    requires InRange(t) && n <= |delays|
    ensures InRange(r) && r.cnt <= t.cnt
  {
    if n == 0 then t else Drained(DrainedFor(t, delays, n - 1), delays[n - 1])
  }

  lemma {:induction false} ArrivedStep(events: seq<Event>, i: nat)
    requires i < |events|
    ensures Arrived(events[..i + 1]) == Arrived(events[..i]) + if events[i].ByteArrives? then [events[i].data] else []
    decreases i
  {
    if i > 0 {
      ArrivedStep(events[1..], i - 1);
      assert events[1..][..i] == events[..i + 1][1..];
      assert events[1..][..i - 1] == events[..i][1..];
    } else {
      assert Arrived(events[..1][1..]) == [];
    }
  }

  lemma FitsOneMore(bytes: seq<Byte>, data: Byte)
    ensures Fitting(bytes + [data]) == if |Fitting(bytes)| < SIZE - 1 then Fitting(bytes) + [data] else Fitting(bytes)
  {
  }

  lemma NothingYet(waiting: seq<Byte>, events: seq<Event>)
    requires |waiting| < SIZE
    ensures Fitting(waiting + Arrived(events[..0])) == waiting
  {
    assert waiting + [] == waiting;
  }

  lemma OneMore(waiting: seq<Byte>, events: seq<Event>, i: nat)
    requires i < |events|
    ensures var before, event := Fitting(waiting + Arrived(events[..i])), events[i];
      Fitting(waiting + Arrived(events[..i + 1]))
      == if event.ByteArrives? && |before| < SIZE - 1 then before + [event.data] else before
  {
    ArrivedStep(events, i);
    if events[i].ByteArrives? {
      FitsOneMore(waiting + Arrived(events[..i]), events[i].data);
      assert waiting + (Arrived(events[..i]) + [events[i].data]) == waiting + Arrived(events[..i]) + [events[i].data];
    } else {
      assert Arrived(events[..i]) + [] == Arrived(events[..i]);
    }
  }

  lemma NextDelay(delays: seq<seq<Event>>, timeoutMs: nat, left: nat)
    requires 0 < left <= timeoutMs <= |delays|
    ensures var now := Arrived(delays[timeoutMs - left]);
      InTime(delays[timeoutMs - left..timeoutMs])
      == if now != [] then now else InTime(delays[timeoutMs - left + 1..timeoutMs])
    ensures var now := Arrived(delays[timeoutMs - left]); [] + now == now && (Fitting(now) == [] <==> now == [])
  {
    var rest := delays[timeoutMs - left..timeoutMs];
    assert rest[0] == delays[timeoutMs - left] && rest[1..] == delays[timeoutMs - left + 1..timeoutMs];
  }

  class SerialPort {
    var txIn: nat
    var txOut: nat
    var txCnt: nat
    const txBuf: array<Byte>
    var rxIn: nat
    var rxOut: nat
    var rxCnt: nat
    const rxBuf: array<Byte>
    // The hardware: UDR0 and UDRIE0.
    var udr: Option<Byte>
    var enabled: bool
    ghost var wire: seq<Byte>
    ghost var sent: seq<Byte>

    ghost predicate Valid()
      reads this, txBuf, rxBuf
    {
      txBuf != rxBuf && txBuf.Length == SIZE && rxBuf.Length == SIZE && RxSound(RxState())
    }

    ghost function TxState(): Tx
      requires txBuf.Length == SIZE
      reads this, txBuf
    {
      Tx.Tx(txIn, txOut, txCnt, txBuf[..], udr, enabled)
    }

    ghost function RxState(): Rx
      requires rxBuf.Length == SIZE
      reads this, rxBuf
    {
      Rx.Rx(rxIn, rxOut, rxCnt, rxBuf[..])
    }

    /** Every byte sent is on the wire or on its way, `pending` still to come. */
    ghost predicate Intact(pending: Option<Byte>)
      requires Valid()
      reads this, txBuf, rxBuf
    {
      LineSound(Line(TxState(), pending, wire, sent))
    }

    /** `InitSerial`, the buffers. */
    constructor ()
      ensures Valid() && Intact(None) && sent == [] && Waiting(RxState()) == [] && fresh(txBuf) && fresh(rxBuf)
    {
      txIn, txOut, txCnt, rxIn, rxOut, rxCnt := 0, 0, 0, 0, 0, 0;
      txBuf := new Byte[SIZE](_ => 0);
      rxBuf := new Byte[SIZE](_ => 0);
      udr, enabled, wire, sent := None, false, [], [];
    }

    /** `USART_UDRE_vect`. */
    method UdreInterrupt()
      requires Valid() && InRange(TxState())
      modifies `txIn, `txOut, `txCnt, `udr, `enabled
      ensures Valid() && TxState() == Udre(old(TxState()))
    {
      if txCnt > 0 {
        txCnt := txCnt - 1;
        if txCnt > 0 {
          udr := Some(txBuf[txOut]);
          txOut := Wrap(txOut + 1);
        }
      } else {
        enabled := false;
        txIn, txOut, txCnt := 0, 0, 0;
      }
    }

    /** `USART_RX_vect`. */
    method RxInterrupt(data: Byte)
      requires Valid()
      modifies `rxIn, `rxCnt, rxBuf
      ensures Valid() && RxState() == Receive(old(RxState()), data)
    {
      Proofs.ReceiveStores(RxState(), data);
      rxBuf[rxIn] := data;
      var next := Wrap(rxIn + 1);
      if next != rxOut {
        rxIn := next;
        rxCnt := rxCnt + 1;
      }
    }

    /** The atomic block of `SendByte`. */
    method StoreByte(data: Byte)
      requires Valid() && InRange(TxState())
      modifies `txIn, `txCnt, `udr, `enabled, `sent, txBuf
      ensures Valid() && TxState() == Commit(old(TxState()), data) && sent == old(sent) + [data]
    {
      if txCnt > 0 {
        txBuf[txIn] := data;
        txIn := Wrap(txIn + 1);
      } else {
        enabled := true;
        udr := Some(data);
      }
      txCnt := txCnt + 1;
      sent := sent + [data];
    }

    /** The interrupts of one delay, as the hardware allows them. */
    method Delay(events: seq<Event>, ghost pending: Option<Byte>)
      requires Valid() && InRange(TxState())
      modifies this, txBuf, rxBuf
      ensures Valid() && sent == old(sent) && TxState() == Drained(old(TxState()), events)
      ensures old(Intact(pending)) ==> Intact(pending)
      ensures Waiting(RxState()) == Fitting(old(Waiting(RxState())) + Arrived(events))
    {
      hide LineSound, Stored, Arrived, Fitting;
      ghost var before := Waiting(RxState());
      NothingYet(before, events);
      for i := 0 to |events|
        invariant Valid() && sent == old(sent) && TxState() == Drained(old(TxState()), events[..i])
        invariant old(Intact(pending)) ==> Intact(pending)
        invariant Waiting(RxState()) == Fitting(before + Arrived(events[..i]))
      {
        HandleEvent(events[i], pending);
        OneMore(before, events, i);
        assert events[..i + 1][..i] == events[..i];
      }
      assert events[..|events|] == events;
    }

    method HandleEvent(event: Event, ghost pending: Option<Byte>)
      requires Valid() && InRange(TxState())
      modifies this, rxBuf
      ensures Valid() && sent == old(sent) && TxState() == DrainedOnce(old(TxState()), event)
      ensures old(Intact(pending)) ==> Intact(pending)
      ensures Waiting(RxState()) ==
        if event.ByteArrives? && old(rxCnt) < SIZE - 1 then old(Waiting(RxState())) + [event.data] else old(Waiting(RxState()))
    {
      hide LineSound, Stored;
      ghost var before := Line(TxState(), pending, wire, sent);
      match event
      case RegisterEmpties =>
        if LineSound(before) { Proofs.TxNextKeepsSound(before, RegisterEmpty); }
        if enabled && udr.None? {
          UdreInterrupt();
        }
      case ByteShifted =>
        if LineSound(before) { Proofs.TxNextKeepsSound(before, ShiftOut); }
        if udr.Some? {
          wire := wire + [udr.value];
          udr := None;
        }
      case ByteArrives(data) =>
        Proofs.ReceiveStores(RxState(), data);
        RxInterrupt(data);
    }

    /** The loop of `SendByte`: it answers true exactly if one of its four looks
        finds room; else it drops what is in the buffer. */
    method WaitForRoom(delays: seq<seq<Event>>) returns (good: bool)
      requires Valid() && InRange(TxState()) && |delays| >= 4
      modifies this, txBuf, rxBuf
      ensures Valid() && InRange(TxState()) && sent == old(sent) && txCnt < SIZE
      ensures good <==> exists n :: 0 <= n < 4 && DrainedFor(old(TxState()), delays, n).cnt < 128
      ensures good && old(Intact(None)) ==> Intact(None)
      ensures !good ==> TxState() == DrainedFor(old(TxState()), delays, 4).(head := 0, tail := 0, cnt := 0)
    {
      hide LineSound, Drained;
      var retry := 0;
      while txCnt >= SIZE
        invariant Valid() && retry < 4 && sent == old(sent) && TxState() == DrainedFor(old(TxState()), delays, retry)
        invariant forall n :: 0 <= n < retry ==> DrainedFor(old(TxState()), delays, n).cnt >= 128
        invariant old(Intact(None)) ==> Intact(None)
        decreases 4 - retry
      {
        Delay(delays[retry], None);
        retry := retry + 1;
        if retry == 4 {
          txIn, txOut, txCnt := 0, 0, 0;
          return false;
        }
      }
      good := true;
    }

    /** `SendByte`; `delays` is what happens in each of its delays and between
        the loop and the atomic block. When it answers true, nothing sent
        before was lost and the byte follows it. */
    method SendByte(data: Byte, delays: seq<seq<Event>>) returns (good: bool)
      requires Valid() && InRange(TxState()) && |delays| >= 5
      modifies this, txBuf, rxBuf
      ensures Valid() && sent == old(sent) + [data]
      ensures good <==> exists n :: 0 <= n < 4 && DrainedFor(old(TxState()), delays, n).cnt < 128
      ensures good && old(Intact(None)) ==> Intact(None)
      ensures !good ==>
        TxState() == Commit(Drained(DrainedFor(old(TxState()), delays, 4).(head := 0, tail := 0, cnt := 0), delays[4]), data)
    {
      hide LineSound, Drained, Commit, DrainedFor;
      good := WaitForRoom(delays);
      ghost var room := Line(TxState(), None, wire, sent);
      if good && LineSound(room) { Proofs.TxNextKeepsSound(room, FindRoom(data)); }
      Delay(delays[4], Some(data));
      ghost var found := Line(TxState(), Some(data), wire, sent);
      if LineSound(found) { Proofs.TxNextKeepsSound(found, Store); }
      StoreByte(data);
    }

    /** The atomic block of `GetDataIn`. */
    method TakeByte() returns (data: Byte)
      requires Valid()
      modifies `rxOut, `rxCnt
      ensures Valid() && (RxState(), data) == Take(old(RxState()))
      ensures old(rxCnt) == 0 ==> data == 0 && RxState() == old(RxState())
    {
      data := 0;
      if rxCnt > 0 {
        Proofs.TakeGivesOldest(RxState());
        data := rxBuf[rxOut];
        rxOut := Wrap(rxOut + 1);
        rxCnt := rxCnt - 1;
      }
    }

    /** `GetDataInWithin`: the oldest byte. With the ring empty that is the first
        to come in time, those that came with it wait on; none if none came. */
    method GetDataInWithin(timeoutMs: nat, delays: seq<seq<Event>>) returns (data: Option<Byte>)
      requires Valid() && InRange(TxState()) && |delays| >= timeoutMs
      modifies this, txBuf, rxBuf
      ensures Valid() && sent == old(sent)
      ensures old(Intact(None)) ==> Intact(None)
      ensures data.None? ==> Waiting(RxState()) == []
      ensures old(rxCnt) > 0 ==> data.Some? && [data.value] + Waiting(RxState()) == old(Waiting(RxState()))
      ensures old(rxCnt) == 0 ==> (data.None? <==> InTime(delays[..timeoutMs]) == [])
      ensures old(rxCnt) == 0 && data.Some? ==> [data.value] + Waiting(RxState()) == Fitting(InTime(delays[..timeoutMs]))
    {
      hide LineSound, Stored, Arrived, Fitting;
      var left := timeoutMs;
      ghost var first := InTime(delays[..timeoutMs]);
      while rxCnt == 0
        invariant Valid() && InRange(TxState()) && 0 <= left <= timeoutMs && sent == old(sent)
        invariant old(Intact(None)) ==> Intact(None)
        invariant old(rxCnt) > 0 ==> RxState() == old(RxState())
        invariant old(rxCnt) == 0 && rxCnt == 0 ==> first == InTime(delays[timeoutMs - left..timeoutMs])
        invariant old(rxCnt) == 0 && rxCnt > 0 ==> first != [] && Waiting(RxState()) == Fitting(first)
        decreases left
      {
        if left == 0 {
          return None;
        }
        NextDelay(delays, timeoutMs, left);
        Delay(delays[timeoutMs - left], None);
        left := left - 1;
      }
      Proofs.TakeGivesOldest(RxState());
      var byte := TakeByte();
      data := Some(byte);
    }
  }
}
