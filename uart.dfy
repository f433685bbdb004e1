/** The interrupt-driven UART transfer engine of the TM4C platform
    (`ecl::uart<ch>`): one object per channel holds the driver context `ctx`,
    the API methods are the driver's static functions and `IrqStep` is one
    invocation of `irq_bus_handler`. Every call is one atomic step.

    Hardware is reduced to what the engine observes of it: the bytes pushed to
    the transmit data register are logged in `written`, the handler invocations
    in `events`, and the byte read from the receive data register is a
    parameter of the interrupt step.

    The driver keeps pointers to the caller's buffers, not copies: the TX
    buffer is read when each byte is pushed. The pure part of the model
    therefore takes the TX buffer's contents at that moment, `data`, as a
    parameter next to the context. */
module TivaUart {
  import opened Ecl

  // Bits of `ctx::status`, with the driver's values.
  const Inited: bv8 := 0x1
  const FillMode: bv8 := 0x2
  const TxDone: bv8 := 0x4
  const RxDone: bv8 := 0x8

  /** `ctx::status`, one field per bit. `Or` and `AndNot` are the driver's
      `status |= mask` and `status &= ~mask`, bit by bit. */
  datatype Status = Status(inited: bool, fill: bool, txDone: bool, rxDone: bool)
  {
    /** The byte the driver stores. */
    function Bits(): bv8
    {
      (if inited then Inited else 0) | (if fill then FillMode else 0) |
      (if txDone then TxDone else 0) | (if rxDone then RxDone else 0)
    }

    function Or(mask: bv8): Status
    {
      Status(inited || mask & Inited != 0, fill || mask & FillMode != 0,
             txDone || mask & TxDone != 0, rxDone || mask & RxDone != 0)
    }

    function AndNot(mask: bv8): Status
    {
      Status(inited && mask & Inited == 0, fill && mask & FillMode == 0,
             txDone && mask & TxDone == 0, rxDone && mask & RxDone == 0)
    }
  }

  const Zero := Status(false, false, false, false)

  /** `bus_channel`: which phase an event reports. */
  datatype BusChannel = Tx | Rx | Meta

  /** `bus_event`. This driver only ever reports `Tc`. */
  datatype BusEvent = Ht | Tc | Error

  /** One invocation of the registered handler. */
  datatype Event = Event(channel: BusChannel, kind: BusEvent, size: nat)

  const MetaEvent := Event(Meta, Tc, 0)

  /** The registered `bus_handler`: the driver's trapping stub, or a
      caller's handler told apart by an identity. */
  datatype Handler = Stub | User(id: nat)

  /** The TX side of the context: the `tx` union together with the fill bit,
      as a tagged variant. `NoTx` is a null buffer pointer, `Buf` a non-null
      one; the buffer's contents are not part of the context. */
  datatype TxSource = NoTx | Buf | Fill(fill: Byte)

  /** The bytes a transfer from `src` of `size` bytes puts on the line when
      the TX buffer holds `data`. */
  function TxBytes(src: TxSource, data: seq<Byte>, size: nat): seq<Byte>
    requires src.Buf? ==> size <= |data|
  {
    match src
    case NoTx => []
    case Buf => data[..size]
    case Fill(b) => seq(size, _ => b)
  }

  /** The TX completion event of a transfer that sends `sending`, if any. */
  function TxEvents(sending: seq<Byte>): seq<Event>
  {
    if sending == [] then [] else [Event(Tx, Tc, |sending|)]
  }

  /** The handler invocations of a whole transfer, in order. */
  function TransferEvents(sending: seq<Byte>, rxOn: bool, rxSize: nat): seq<Event>
  {
    TxEvents(sending) + (if rxOn then [Event(Rx, Tc, rxSize)] else []) + [MetaEvent]
  }

  /** The scalar part of `ctx`: all of it but the handler, with the RX
      buffer reduced to whether it is set. */
  datatype Ctx = Ctx(tx: TxSource, txSize: nat, txIdx: nat,
                     rxOn: bool, rxSize: nat, rxIdx: nat, status: Status)

  predicate TxActive(c: Ctx) { c.status.inited && !c.status.txDone }

  predicate RxActive(c: Ctx) { c.status.inited && !c.status.rxDone }

  predicate InFlight(c: Ctx) { TxActive(c) || RxActive(c) }

  /** The step reads one byte into the RX buffer exactly when TX is over and
      RX is in flight. */
  predicate ReadsByte(c: Ctx) { !TxActive(c) && RxActive(c) }

  /** Both phases done: the state `init` leaves and a transfer returns to. */
  predicate Idle(c: Ctx) { c.status.inited && c.status.txDone && c.status.rxDone }

  /** What every reachable context satisfies: the fill bit agrees with the
      TX variant, indices stay within their sizes, and a phase in flight
      has its buffer. */
  predicate Wf(c: Ctx)
  {
    && (!c.status.inited ==> c.status == Zero)
    && (c.status.fill <==> c.tx.Fill?)
    && c.rxIdx <= c.rxSize
    && (TxActive(c) ==> c.tx != NoTx && 1 <= c.txIdx <= c.txSize)
    && (RxActive(c) ==> c.rxOn && c.rxIdx < c.rxSize)
  }

  /** The TX buffer, holding `data`, is large enough for the TX size. */
  predicate Fits(c: Ctx, data: seq<Byte>)
  {
    c.tx.Buf? ==> c.txSize <= |data|
  }

  /** Interrupt steps left until the transfer in flight is over: one per TX
      byte still to push, one for the TX termination, one per RX byte. */
  function Remaining(c: Ctx): nat
    requires Wf(c)
  {
    (if TxActive(c) then c.txSize - c.txIdx + 1 else 0) +
    (if RxActive(c) then c.rxSize - c.rxIdx else 0)
  }

  /** What one invocation of `irq_bus_handler` does to the context. */
  function Step(c: Ctx): (r: Ctx)
    requires Wf(c) && c.status.inited
    ensures Wf(r) && r.status.inited
  {
    if !c.status.txDone then
      if c.txIdx == c.txSize then c.(status := c.status.Or(TxDone))
      else c.(txIdx := c.txIdx + 1)
    else if !c.status.rxDone then
      if c.rxIdx + 1 == c.rxSize then c.(rxIdx := c.rxIdx + 1, status := c.status.Or(RxDone))
      else c.(rxIdx := c.rxIdx + 1)
    else c
  }

  /** A step keeps the configuration, takes one step off what remains of a
      transfer in flight, and changes nothing when none is. */
  lemma StepCounts(c: Ctx)
    requires Wf(c) && c.status.inited
    ensures Step(c).tx == c.tx && Step(c).txSize == c.txSize
    ensures Step(c).rxOn == c.rxOn && Step(c).rxSize == c.rxSize
    ensures InFlight(c) ==> Remaining(Step(c)) == Remaining(c) - 1
    ensures !InFlight(c) ==> Step(c) == c
    ensures TxActive(c) ==> Step(c).rxIdx == c.rxIdx && Step(c).status.rxDone == c.status.rxDone
    ensures !TxActive(c) ==> Step(c).txIdx == c.txIdx && Step(c).status.txDone == c.status.txDone
  {
  }

  /** The byte one step pushes to the transmit data register, if any. */
  function StepWritten(c: Ctx, data: seq<Byte>): seq<Byte>
    requires Wf(c) && c.status.inited && Fits(c, data)
  {
    if TxActive(c) && c.txIdx < c.txSize then [TxBytes(c.tx, data, c.txSize)[c.txIdx]] else []
  }

  /** The completion event of the phase one step ends, if it ends one. */
  function PhaseEvents(c: Ctx): seq<Event>
  {
    if TxActive(c) && c.txIdx == c.txSize then [Event(Tx, Tc, c.txSize)]
    else if !TxActive(c) && RxActive(c) && c.rxIdx + 1 == c.rxSize then [Event(Rx, Tc, c.rxSize)]
    else []
  }

  /** The handler invocations of one step: the completion of the phase it
      ends, then the meta event if both phases are done afterwards. */
  function StepEvents(c: Ctx): seq<Event>
    requires Wf(c) && c.status.inited
  {
    PhaseEvents(c) + (if Idle(Step(c)) then [MetaEvent] else [])
  }

  /** `n` interrupt steps. */
  function Run(c: Ctx, n: nat): (r: Ctx)
    requires Wf(c) && c.status.inited
    ensures Wf(r) && r.status.inited
    ensures r.tx == c.tx && r.txSize == c.txSize && r.rxOn == c.rxOn && r.rxSize == c.rxSize
    ensures n <= Remaining(c) ==> Remaining(r) == Remaining(c) - n
    decreases n
  {
    if n == 0 then c else StepCounts(c); Run(Step(c), n - 1)
  }

  function RunWritten(c: Ctx, data: seq<Byte>, n: nat): seq<Byte>
    requires Wf(c) && c.status.inited && Fits(c, data)
    decreases n
  {
    if n == 0 then [] else StepCounts(c); StepWritten(c, data) + RunWritten(Step(c), data, n - 1)
  }

  function RunEvents(c: Ctx, n: nat): seq<Event>
    requires Wf(c) && c.status.inited
    decreases n
  {
    if n == 0 then [] else StepEvents(c) + RunEvents(Step(c), n - 1)
  }

  /** Where a transfer's part of the two logs begins and what it must put
      there; recorded by `do_xfer`. */
  datatype Transfer = Transfer(sending: seq<Byte>, expected: seq<Event>,
                               writtenMark: nat, eventsMark: nat)

  /** How far a transfer of `sending` has got on the line, given the bytes
      `sent` so far: while TX runs they are a prefix of `sending`, once only
      RX runs they are all of it. */
  ghost predicate SentInv(c: Ctx, data: seq<Byte>, sending: seq<Byte>, sent: seq<Byte>)
    requires Wf(c) && Fits(c, data)
  {
    && (TxActive(c) ==> sending == TxBytes(c.tx, data, c.txSize) && sent == sending[..c.txIdx])
    && (ReadsByte(c) ==> sent == sending)
  }

  /** How far a transfer of `sending` has got with the handler, given the
      invocations `fired` so far: none while TX runs, the TX event once only
      RX runs; and what the whole transfer is to fire. */
  ghost predicate FiredInv(c: Ctx, sending: seq<Byte>, expected: seq<Event>, fired: seq<Event>)
    requires Wf(c)
  {
    && (TxActive(c) ==> |sending| == c.txSize && fired == [])
    && (ReadsByte(c) ==> fired == TxEvents(sending))
    && (InFlight(c) ==> expected == TransferEvents(sending, RxActive(c), c.rxSize))
  }

  /** Both halves of a transfer's progress over its part of the two logs. */
  ghost predicate TransferInv(c: Ctx, data: seq<Byte>, t: Transfer, written: seq<Byte>,
                              events: seq<Event>)
  {
    && Wf(c) && Fits(c, data)
    && t.writtenMark <= |written| && t.eventsMark <= |events|
    && SentInv(c, data, t.sending, written[t.writtenMark..])
    && FiredInv(c, t.sending, t.expected, events[t.eventsMark..])
  }

  /** A context with no transfer in flight keeps any logs on track. */
  lemma QuietTransfer(c: Ctx, data: seq<Byte>, t: Transfer, written: seq<Byte>, events: seq<Event>)
    requires Wf(c) && Fits(c, data) && !InFlight(c)
    requires t.writtenMark <= |written| && t.eventsMark <= |events|
    ensures TransferInv(c, data, t, written, events)
  {
  }

  /** An interrupt step keeps the bytes on track, and the step that ends TX
      completes them. */
  lemma StepSent(c: Ctx, data: seq<Byte>, sending: seq<Byte>, sent: seq<Byte>)
    requires Wf(c) && c.status.inited && Fits(c, data) && InFlight(c)
    requires SentInv(c, data, sending, sent)
    ensures Fits(Step(c), data)
    ensures SentInv(Step(c), data, sending, sent + StepWritten(c, data))
    ensures !InFlight(Step(c)) ==> sent + StepWritten(c, data) == sending
  {
    if TxActive(c) && c.txIdx < c.txSize {
      assert sending[..c.txIdx + 1] == sending[..c.txIdx] + [sending[c.txIdx]];
    } else if TxActive(c) {
      assert sending[..c.txIdx] == sending;
    }
  }

  /** An interrupt step keeps the handler invocations on track, and the step
      that ends the transfer completes them. */
  lemma StepFired(c: Ctx, sending: seq<Byte>, expected: seq<Event>, fired: seq<Event>)
    requires Wf(c) && c.status.inited && InFlight(c) && FiredInv(c, sending, expected, fired)
    ensures FiredInv(Step(c), sending, expected, fired + StepEvents(c))
    ensures !InFlight(Step(c)) ==> Idle(Step(c)) && fired + StepEvents(c) == expected
  {
  }

  /** The transfer's part of the logs grows by what the step appends. */
  lemma StepKeepsTransfer(c: Ctx, data: seq<Byte>, t: Transfer, written: seq<Byte>,
                          events: seq<Event>)
    requires c.status.inited && InFlight(c) && TransferInv(c, data, t, written, events)
    ensures TransferInv(Step(c), data, t, written + StepWritten(c, data), events + StepEvents(c))
  {
    assert (written + StepWritten(c, data))[t.writtenMark..] ==
           written[t.writtenMark..] + StepWritten(c, data);
    assert (events + StepEvents(c))[t.eventsMark..] == events[t.eventsMark..] + StepEvents(c);
    StepSent(c, data, t.sending, written[t.writtenMark..]);
    StepFired(c, t.sending, t.expected, events[t.eventsMark..]);
  }

  /** The meta event fires in exactly the step that ends the transfer. */
  lemma MetaEndsTransfer(c: Ctx)
    requires Wf(c) && c.status.inited && InFlight(c)
    ensures MetaEvent in StepEvents(c) <==> !InFlight(Step(c))
  {
    assert MetaEvent !in PhaseEvents(c);
  }

  lemma AppendAssoc<T>(a: seq<T>, b: seq<T>, c: seq<T>)
    ensures (a + b) + c == a + (b + c)
  {
  }

  /** The bytes the remaining steps of a transfer write complete `sending`. */
  lemma {:induction false} RunWrites(c: Ctx, data: seq<Byte>, sending: seq<Byte>, sent: seq<Byte>)
    requires Wf(c) && c.status.inited && Fits(c, data) && InFlight(c)
    requires SentInv(c, data, sending, sent)
    ensures sent + RunWritten(c, data, Remaining(c)) == sending
    decreases Remaining(c)
  {
    var n := Remaining(c);
    StepCounts(c);
    StepSent(c, data, sending, sent);
    if InFlight(Step(c)) {
      var rest := RunWritten(Step(c), data, n - 1);
      RunWrites(Step(c), data, sending, sent + StepWritten(c, data));
      assert RunWritten(c, data, n) == StepWritten(c, data) + rest;
      AppendAssoc(sent, StepWritten(c, data), rest);
    } else {
      assert RunWritten(c, data, n) == StepWritten(c, data) + RunWritten(Step(c), data, 0);
    }
  }

  /** The events the remaining steps of a transfer fire complete `expected`. */
  lemma {:induction false} RunNotifies(c: Ctx, sending: seq<Byte>, expected: seq<Event>,
                                       fired: seq<Event>)
    requires Wf(c) && c.status.inited && InFlight(c) && FiredInv(c, sending, expected, fired)
    ensures fired + RunEvents(c, Remaining(c)) == expected
    decreases Remaining(c)
  {
    var n := Remaining(c);
    StepCounts(c);
    StepFired(c, sending, expected, fired);
    if InFlight(Step(c)) {
      var rest := RunEvents(Step(c), n - 1);
      RunNotifies(Step(c), sending, expected, fired + StepEvents(c));
      assert RunEvents(c, n) == StepEvents(c) + rest;
      AppendAssoc(fired, StepEvents(c), rest);
    } else {
      assert RunEvents(c, n) == StepEvents(c) + RunEvents(Step(c), 0);
    }
  }

  /** A transfer in flight ends after exactly `Remaining` interrupt steps,
      having written exactly the bytes it was started with and fired exactly
      the expected events. */
  lemma TransferCompletes(c: Ctx, data: seq<Byte>, t: Transfer, written: seq<Byte>,
                          events: seq<Event>)
    requires c.status.inited && InFlight(c) && TransferInv(c, data, t, written, events)
    ensures Idle(Run(c, Remaining(c)))
    ensures forall k :: 0 <= k < Remaining(c) ==> InFlight(Run(c, k))
    ensures written[t.writtenMark..] + RunWritten(c, data, Remaining(c)) == t.sending
    ensures events[t.eventsMark..] + RunEvents(c, Remaining(c)) == t.expected
  {
    RunWrites(c, data, t.sending, written[t.writtenMark..]);
    RunNotifies(c, t.sending, t.expected, events[t.eventsMark..]);
  }

  /** The context `init` leaves: a default-constructed one with the inited
      and both done bits set. */
  const Ready := Ctx(NoTx, 0, 0, false, 0, 0, Status(true, false, true, true))

  /** `Ready`'s status is what `init`'s OR makes of the zero status, and its
      byte is `0x0D`; `Ready` is idle. */
  lemma ReadyIdle()
    ensures Zero.Or(Inited | RxDone | TxDone) == Ready.status
    ensures Wf(Ready) && Idle(Ready)
    ensures Ready.status.Bits() == 0x0D
  {
  }

  /** The driver invariant holds of `Ready` whatever the buffers hold. */
  lemma ReadyInv(data: seq<Byte>, t: Transfer, written: seq<Byte>, events: seq<Event>,
                 buf: seq<Byte>, received: seq<Byte>, rxStart: nat)
    requires t.writtenMark <= |written| && t.eventsMark <= |events|
    ensures Inv(Ready, data, t, written, events, buf, received, rxStart)
  {
    ReadyIdle();
    QuietTransfer(Ready, data, t, written, events);
  }

  /** What `do_xfer` demands of the context: idle, something configured, a
      non-empty TX buffer and an RX index short of its size. */
  predicate CanStart(c: Ctx)
  {
    Wf(c) && Idle(c) && (c.tx != NoTx || c.rxOn) &&
    (c.tx != NoTx ==> c.txSize >= 1) && (c.rxOn ==> c.rxIdx < c.rxSize)
  }

  /** What `do_xfer` does to the context: the configured phases are put in
      flight, TX with its first byte already pushed. */
  function Start(c: Ctx): (r: Ctx)
    requires CanStart(c)
    ensures Wf(r)
  {
    c.(txIdx := if c.tx != NoTx then 1 else c.txIdx,
       status := c.status.(txDone := c.tx == NoTx, rxDone := !c.rxOn))
  }

  /** The started transfer runs exactly the configured phases, and what
      remains of it is the TX size plus the RX bytes still to come. */
  lemma StartInFlight(c: Ctx)
    requires CanStart(c)
    ensures InFlight(Start(c)) && Start(c).status.inited
    ensures TxActive(Start(c)) <==> c.tx != NoTx
    ensures RxActive(Start(c)) <==> c.rxOn
    ensures Remaining(Start(c)) ==
              (if c.tx != NoTx then c.txSize else 0) + (if c.rxOn then c.rxSize - c.rxIdx else 0)
  {
  }

  /** The byte `do_xfer` pushes itself, if TX is configured. */
  function StartWritten(c: Ctx, data: seq<Byte>): seq<Byte>
    requires CanStart(c) && Fits(c, data)
  {
    if c.tx != NoTx then [TxBytes(c.tx, data, c.txSize)[0]] else []
  }

  /** The transfer `do_xfer` starts, with its parts of the logs beginning
      where the logs end: the bytes the TX buffer holds at that moment. */
  function StartTransfer(c: Ctx, data: seq<Byte>, written: seq<Byte>, events: seq<Event>): Transfer
    requires CanStart(c) && Fits(c, data)
  {
    var sending := TxBytes(c.tx, data, c.txSize);
    Transfer(sending, TransferEvents(sending, c.rxOn, c.rxSize), |written|, |events|)
  }

  /** A started transfer is on track. */
  lemma StartKeepsTransfer(c: Ctx, data: seq<Byte>, written: seq<Byte>, events: seq<Event>)
    requires CanStart(c) && Fits(c, data)
    ensures TransferInv(Start(c), data, StartTransfer(c, data, written, events),
                        written + StartWritten(c, data), events)
  {
    var t := StartTransfer(c, data, written, events);
    assert (written + StartWritten(c, data))[|written|..] == StartWritten(c, data);
    assert events[|events|..] == [];
    if c.tx != NoTx {
      assert t.sending[..1] == StartWritten(c, data);
    }
  }

  /** Once TX is over, the TX buffer's contents no longer matter to the
      transfer: the buffer may be rewritten, even by RX into the same
      memory, without leaving the transfer's track. */
  lemma TxDoneKeepsTransfer(c: Ctx, data: seq<Byte>, data': seq<Byte>, t: Transfer,
                            written: seq<Byte>, events: seq<Event>)
    requires TransferInv(c, data, t, written, events) && !TxActive(c) && |data'| == |data|
    ensures TransferInv(c, data', t, written, events)
  {
  }

  /** The RX buffer `buf` of context `c`: large enough for the configured
      size, and holding what the transfer in flight has received so far from
      `rxStart` on. */
  ghost predicate RxInv(c: Ctx, buf: seq<Byte>, received: seq<Byte>, rxStart: nat)
  {
    && (c.rxOn ==> c.rxSize <= |buf|)
    && (RxActive(c) ==> rxStart <= c.rxIdx <= |buf| && buf[rxStart..c.rxIdx] == received)
  }

  /** An interrupt step keeps the received bytes in the buffer. */
  lemma StepKeepsRx(c: Ctx, buf: seq<Byte>, received: seq<Byte>, rxStart: nat, incoming: Byte)
    requires Wf(c) && c.status.inited && RxInv(c, buf, received, rxStart)
    ensures ReadsByte(c) ==>
              RxInv(Step(c), buf[c.rxIdx := incoming], received + [incoming], rxStart)
    ensures !ReadsByte(c) ==> RxInv(Step(c), buf, received, rxStart)
    ensures ReadsByte(c) && !InFlight(Step(c)) ==>
              buf[c.rxIdx := incoming][rxStart..c.rxSize] == received + [incoming]
  {
    if ReadsByte(c) {
      var b := buf[c.rxIdx := incoming];
      assert b[rxStart..c.rxIdx + 1] == buf[rxStart..c.rxIdx] + [incoming];
    }
  }

  /** The driver's invariant over the context, its logs and its RX buffer. */
  ghost predicate Inv(c: Ctx, data: seq<Byte>, t: Transfer, written: seq<Byte>,
                      events: seq<Event>, buf: seq<Byte>, received: seq<Byte>, rxStart: nat)
  {
    TransferInv(c, data, t, written, events) && RxInv(c, buf, received, rxStart)
  }

  /** A started transfer keeps the invariant, with nothing received yet. */
  lemma StartKeepsInv(c: Ctx, data: seq<Byte>, t: Transfer, written: seq<Byte>,
                      events: seq<Event>, buf: seq<Byte>, received: seq<Byte>, rxStart: nat)
    requires CanStart(c) && Inv(c, data, t, written, events, buf, received, rxStart)
    ensures Inv(Start(c), data, StartTransfer(c, data, written, events),
                written + StartWritten(c, data), events, buf, [], c.rxIdx)
  {
    StartKeepsTransfer(c, data, written, events);
  }

  /** As written, `do_xfer` leaves `rx_idx` where the last transfer left it,
      and a transfer with RX leaves it at `rx_sz`. So a second `do_xfer`
      without a `set_rx` in between may not start: its first RX byte would
      go to `rx[rx_sz]`, and `rx_idx` would then pass `rx_sz` and never meet
      it again. */
  lemma {:induction false} RxIndexSpent(c: Ctx)
    requires Wf(c) && c.status.inited && RxActive(c)
    ensures Idle(Run(c, Remaining(c)))
    ensures Run(c, Remaining(c)).rxIdx == c.rxSize
    ensures !CanStart(Run(c, Remaining(c)))
    decreases Remaining(c)
  {
    StepCounts(c);
    var n := Remaining(c);
    if RxActive(Step(c)) {
      RxIndexSpent(Step(c));
      assert Run(c, n) == Run(Step(c), n - 1);
    } else {
      assert n == 1;
      assert Run(c, n) == Step(c);
    }
  }

  /** What `do_xfer` would demand if it reset `rx_idx` to 0 with RX
      configured: idle, something configured, and neither buffer empty. */
  predicate CanStartCorrected(c: Ctx)
  {
    Wf(c) && Idle(c) && (c.tx != NoTx || c.rxOn) &&
    (c.tx != NoTx ==> c.txSize >= 1) && (c.rxOn ==> c.rxSize >= 1)
  }

  /** With `rx_idx` reset, the context a transfer ends in may start again. */
  lemma RestartAfterTransfer(c: Ctx)
    requires Wf(c) && c.status.inited && InFlight(c)
    requires (c.tx != NoTx ==> c.txSize >= 1) && (c.rxOn ==> c.rxSize >= 1)
    ensures CanStartCorrected(Run(c, Remaining(c)))
    ensures CanStart(Run(c, Remaining(c)).(rxIdx := 0))
  {
    var r := Run(c, Remaining(c));
    assert Remaining(r) == 0;
    assert !TxActive(r) && !RxActive(r);
  }

  /** `bus::ctx` of one UART channel together with the hooks of the
      interrupt handler. The two ghost logs record what reaches the outside
      world: the bytes pushed to the transmit data register and the handler
      invocations. */
  class Uart {
    var handler: Handler
    var tx: TxSource
    /** The `tx.buf` pointer; what it points to is the caller's. */
    var txBuf: array?<Byte>
    var txSize: nat
    /** In buffer mode the index of the next byte; in fill mode the count of
        bytes written. */
    var txIdx: nat
    var rx: array?<Byte>
    var rxSize: nat
    var rxIdx: nat
    var status: Status

    /** Every byte pushed to the transmit data register, oldest first. */
    ghost var written: seq<Byte>
    /** Every handler invocation, oldest first. */
    ghost var events: seq<Event>
    /** The transfer started by the last `DoXfer`. */
    ghost var xfer: Transfer
    /** The bytes that transfer has received so far, and where they start. */
    ghost var received: seq<Byte>
    ghost var rxStart: nat

    function Snap(): Ctx
      reads this
    {
      Ctx(tx, txSize, txIdx, rx != null, rxSize, rxIdx, status)
    }

    /** The RX buffer's contents; empty for a null buffer. */
    function RxContents(): seq<Byte>
      reads this, rx
    {
      if rx == null then [] else rx[..]
    }

    /** The TX buffer's contents now; empty for a null buffer. */
    function TxContents(): seq<Byte>
      reads this, txBuf
    {
      if txBuf == null then [] else txBuf[..]
    }

    ghost predicate Valid()
      reads this, rx, txBuf
    {
      && (tx.Buf? ==> txBuf != null)
      && Inv(Snap(), TxContents(), xfer, written, events, RxContents(), received, rxStart)
    }

    /** The zero-initialised static storage of the context, before `init`. */
    constructor ()
      ensures Valid() && status == Zero && !InFlight(Snap())
      ensures handler == Stub && rx == null && txBuf == null
      ensures Snap() == Ctx(NoTx, 0, 0, false, 0, 0, Zero)
      ensures written == [] && events == []
    {
      handler := Stub;
      tx, txBuf := NoTx, null;
      txSize, txIdx := 0, 0;
      rx := null;
      rxSize, rxIdx := 0, 0;
      status := Zero;
      written, events := [], [];
      xfer := Transfer([], [], 0, 0);
      received, rxStart := [], 0;
    }

    /** The in-place construction of the context `init` starts with: the
        default context, and the bookkeeping of the last transfer started
        afresh at the ends of the logs. */
    method ConstructCtx()
      modifies this
      ensures handler == Stub && rx == null && txBuf == null
      ensures Snap() == Ctx(NoTx, 0, 0, false, 0, 0, Zero)
      ensures written == old(written) && events == old(events)
      ensures xfer == Transfer([], [], |written|, |events|) && received == [] && rxStart == 0
    {
      handler, tx, txBuf, txSize, txIdx := Stub, NoTx, null, 0, 0;
      rx, rxSize, rxIdx, status := null, 0, 0, Zero;
      xfer, received, rxStart := Transfer([], [], |written|, |events|), [], 0;
    }

    /** `init`: constructs the context and marks the channel idle. Only the
        uninitialised status is demanded. */
    method Init() returns (e: Err)
      requires status == Zero
      modifies this
      ensures Valid() && e == Ok
      ensures handler == Stub && rx == null && txBuf == null && Snap() == Ready
      ensures written == old(written) && events == old(events)
      ensures received == [] && rxStart == 0
    {
      ConstructCtx();
      status := status.Or(Inited | RxDone | TxDone);
      ReadyIdle();
      ReadyInv(TxContents(), xfer, written, events, RxContents(), received, rxStart);
      e := Ok;
    }

    /** `set_rx`: allowed once initialised and while RX is not in flight. */
    method SetRx(buf: array?<Byte>, size: nat)
      requires Valid() && status.inited && status.rxDone
      requires buf != null ==> size <= buf.Length
      modifies this
      ensures Valid() && rx == buf && txBuf == old(txBuf) && handler == old(handler)
      ensures Snap() == old(Snap()).(rxOn := buf != null, rxSize := size, rxIdx := 0)
      ensures written == old(written) && events == old(events) && xfer == old(xfer)
      ensures received == old(received) && rxStart == old(rxStart)
    {
      rx := buf;
      rxSize := size;
      rxIdx := 0;
    }

    /** `set_tx(tx, size)`: a buffer (or null) to transmit; leaves fill mode.
        Only the pointer is kept: the bytes sent are those the buffer holds
        when each is pushed. */
    method SetTx(buf: array?<Byte>, size: nat)
      requires Valid() && status.inited && status.txDone
      requires buf != null ==> size <= buf.Length
      modifies this
      ensures Valid() && txBuf == buf && rx == old(rx) && handler == old(handler)
      ensures Snap() == old(Snap()).(tx := if buf != null then Buf else NoTx,
                                    txSize := size, txIdx := 0,
                                    status := old(status).(fill := false))
      ensures written == old(written) && events == old(events) && xfer == old(xfer)
      ensures received == old(received) && rxStart == old(rxStart)
    {
      tx := if buf != null then Buf else NoTx;
      txBuf := buf;
      txSize := size;
      txIdx := 0;
      status := status.AndNot(FillMode);
    }

    /** `set_tx(size, fill_byte)`: transmit `size` copies of one byte. The
        index is left as it was. */
    method SetTxFill(size: nat, fill: Byte := 0xff)
      requires Valid() && status.inited && status.txDone
      modifies this
      ensures Valid() && rx == old(rx) && txBuf == old(txBuf) && handler == old(handler)
      ensures Snap() == old(Snap()).(tx := Fill(fill), txSize := size,
                                    status := old(status).(fill := true))
      ensures written == old(written) && events == old(events) && xfer == old(xfer)
      ensures received == old(received) && rxStart == old(rxStart)
    {
      tx := Fill(fill);
      txSize := size;
      status := status.Or(FillMode);
    }

    /** `set_handler`: only while idle. */
    method SetHandler(h: Handler)
      requires Valid() && Idle(Snap())
      modifies this
      ensures Valid() && handler == h && rx == old(rx) && txBuf == old(txBuf)
      ensures Snap() == old(Snap())
      ensures written == old(written) && events == old(events) && xfer == old(xfer)
      ensures received == old(received) && rxStart == old(rxStart)
    {
      handler := h;
    }

    /** `reset_handler`: back to the trapping stub, only while idle. */
    method ResetHandler()
      requires Valid() && Idle(Snap())
      modifies this
      ensures Valid() && handler == Stub && rx == old(rx) && txBuf == old(txBuf)
      ensures Snap() == old(Snap())
      ensures written == old(written) && events == old(events) && xfer == old(xfer)
      ensures received == old(received) && rxStart == old(rxStart)
    {
      handler := Stub;
    }

    /** `reset_buffers`: forgets both buffers and fill mode; sizes and
        indices stay. Only while idle. */
    method ResetBuffers()
      requires Valid() && Idle(Snap())
      modifies this
      ensures Valid() && rx == null && txBuf == null && handler == old(handler)
      ensures Snap() == old(Snap()).(tx := NoTx, rxOn := false,
                                    status := old(status).(fill := false))
      ensures written == old(written) && events == old(events) && xfer == old(xfer)
      ensures received == old(received) && rxStart == old(rxStart)
    {
      status := status.AndNot(FillMode);
      tx, txBuf := NoTx, null;
      rx := null;
    }

    /** The TX part of `do_xfer`: push the first byte and put TX in flight. */
    method PushFirst()
      requires Wf(Snap()) && tx != NoTx && txSize >= 1
      requires tx.Buf? ==> txBuf != null && txSize <= txBuf.Length
      modifies this
      ensures Snap() == old(Snap()).(txIdx := 1, status := old(status).(txDone := false))
      ensures written == old(written) + [TxBytes(old(tx), old(TxContents()), old(txSize))[0]]
      ensures events == old(events) && handler == old(handler) && rx == old(rx)
      ensures txBuf == old(txBuf)
      ensures xfer == old(xfer) && received == old(received) && rxStart == old(rxStart)
    {
      var first := if status.fill then tx.fill else txBuf[0];
      written, txIdx, status := written + [first], 1, status.AndNot(TxDone);
    }

    /** `do_xfer`: starts a transfer from idle. With TX configured the first
        byte is pushed right away and TX is marked in flight; with RX
        configured RX is marked in flight. The transfer's bytes and events
        are recorded in `xfer`. */
    method DoXfer() returns (e: Err)
      requires Valid() && CanStart(Snap())
      modifies this
      ensures Valid() && e == Ok
      ensures handler == old(handler) && rx == old(rx) && txBuf == old(txBuf)
      ensures Snap() == Start(old(Snap()))
      ensures xfer == StartTransfer(old(Snap()), old(TxContents()), old(written), old(events))
      ensures written == old(written) + StartWritten(old(Snap()), old(TxContents()))
      ensures events == old(events)
      ensures received == [] && rxStart == old(rxIdx)
    {
      ghost var c, d, w0, e0 := Snap(), TxContents(), written, events;
      xfer, received, rxStart := StartTransfer(c, d, w0, e0), [], rxIdx;

      if status.fill || tx.Buf? {
        PushFirst();
      }
      if rx != null {
        status := status.AndNot(RxDone);
      }
      assert Snap() == Start(c);
      StartKeepsTransfer(c, d, w0, e0);
      e := Ok;
    }

    /** `do_xfer` as evidently intended: it resets `rx_idx` when RX is
        configured, so that the same buffers serve transfer after
        transfer. */
    method DoXferCorrected() returns (e: Err)
      requires Valid() && CanStartCorrected(Snap())
      modifies this
      ensures Valid() && e == Ok
      ensures handler == old(handler) && rx == old(rx) && txBuf == old(txBuf)
      ensures var c := old(Snap()).(rxIdx := if old(rx) != null then 0 else old(rxIdx));
              && CanStart(c)
              && Snap() == Start(c)
              && xfer == StartTransfer(c, old(TxContents()), old(written), old(events))
              && written == old(written) + StartWritten(c, old(TxContents()))
              && received == [] && rxStart == c.rxIdx
      ensures events == old(events)
    {
      if rx != null {
        rxIdx := 0;
      }
      e := DoXfer();
    }

    /** `cancel_xfer` as written: after masking the interrupt it ORs
        `tx_done & rx_done`, which is 0, into the status, so a transfer in
        flight stays in flight. */
    method CancelXfer() returns (e: Err)
      requires Valid()
      modifies this
      ensures Valid() && e == Ok
      ensures Snap() == old(Snap()) && InFlight(Snap()) == old(InFlight(Snap()))
      ensures handler == old(handler) && rx == old(rx) && txBuf == old(txBuf)
      ensures written == old(written) && events == old(events) && xfer == old(xfer)
      ensures received == old(received) && rxStart == old(rxStart)
    {
      status := status.Or(TxDone & RxDone);
      e := Ok;
    }

    /** `cancel_xfer` as evidently intended: forces both done bits, so the
        channel is idle afterwards whatever it was doing. */
    method CancelXferCorrected() returns (e: Err)
      requires Valid() && status.inited
      modifies this
      ensures Valid() && Idle(Snap()) && e == Ok
      ensures Snap() == old(Snap()).(status := old(status).(txDone := true, rxDone := true))
      ensures handler == old(handler) && rx == old(rx) && txBuf == old(txBuf)
      ensures written == old(written) && events == old(events) && xfer == old(xfer)
      ensures received == old(received) && rxStart == old(rxStart)
    {
      status := status.Or(TxDone | RxDone);
      e := Ok;
    }

    /** The TX branch of `irq_bus_handler`: push the next byte, or mark
        TX done once all are out. */
    method TxIrq()
      requires Wf(Snap()) && TxActive(Snap())
      requires tx.Buf? ==> txBuf != null && txSize <= txBuf.Length
      modifies this
      ensures Snap() == Step(old(Snap()))
      ensures written == old(written) + StepWritten(old(Snap()), old(TxContents()))
      ensures events == old(events) + PhaseEvents(old(Snap()))
      ensures handler == old(handler) && rx == old(rx) && txBuf == old(txBuf) && xfer == old(xfer)
      ensures received == old(received) && rxStart == old(rxStart)
    {
      if txIdx == txSize {
        events := events + [Event(Tx, Tc, txSize)];
        status := status.Or(TxDone);
      } else {
        var b: Byte;
        if status.fill {
          b := tx.fill;
        } else {
          b := txBuf[txIdx];
        }
        written := written + [b];
        txIdx := txIdx + 1;
      }
    }

    /** The RX branch of `irq_bus_handler`: store the incoming byte, and
        mark RX done once the buffer is full. */
    method RxIrq(incoming: Byte)
      requires Wf(Snap()) && ReadsByte(Snap()) && rx != null && rxIdx < rx.Length
      modifies this, rx
      ensures Snap() == Step(old(Snap()))
      ensures rx[..] == old(rx[..])[old(rxIdx) := incoming]
      ensures received == old(received) + [incoming]
      ensures written == old(written) && events == old(events) + PhaseEvents(old(Snap()))
      ensures handler == old(handler) && rx == old(rx) && txBuf == old(txBuf) && xfer == old(xfer)
      ensures rxStart == old(rxStart)
    {
      rx[rxIdx] := incoming;
      received := received + [incoming];
      rxIdx := rxIdx + 1;
      if rxIdx == rxSize {
        events := events + [Event(Rx, Tc, rxSize)];
        status := status.Or(RxDone);
      }
    }

    /** One invocation of `irq_bus_handler`. `incoming` is what the receive
        data register yields if this step reads it. The stub handler's
        assertion is a precondition: no event may reach it. Together with
        `TransferCompletes`, the postconditions say that a transfer started
        by `DoXfer` ends after `Remaining` invocations with exactly its bytes
        written, its events fired and its bytes received, in order, into the
        RX buffer. */
    method IrqStep(incoming: Byte)
      requires Valid() && status.inited
      requires handler.Stub? ==> StepEvents(Snap()) == []
      modifies this, rx
      ensures Valid()
      ensures Snap() == Step(old(Snap()))
      ensures handler == old(handler) && rx == old(rx) && txBuf == old(txBuf) && xfer == old(xfer)
      ensures written == old(written) + StepWritten(old(Snap()), old(TxContents()))
      ensures events == old(events) + StepEvents(old(Snap()))
      ensures received == old(received) + (if old(ReadsByte(Snap())) then [incoming] else [])
      ensures rxStart == old(rxStart)
      ensures rx != null ==>
                rx[..] == if old(ReadsByte(Snap())) then old(rx[..])[old(rxIdx) := incoming]
                          else old(rx[..])
      ensures old(RxActive(Snap())) && !InFlight(Snap()) ==>
                && rx != null && rxStart <= rxSize <= rx.Length
                && rx[rxStart..rxSize] == received
    {
      ghost var c, d, w0, e0 := Snap(), TxContents(), written, events;
      ghost var buf0, got0 := RxContents(), received;
      if !status.txDone {
        TxIrq();
      } else if !status.rxDone {
        RxIrq(incoming);
      } else {
        StepCounts(c);
      }
      if status.txDone && status.rxDone {
        events := events + [MetaEvent];
      }
      assert Snap() == Step(c);
      assert written == w0 + StepWritten(c, d);
      assert events == e0 + StepEvents(c);
      StepKeepsRx(c, buf0, got0, rxStart, incoming);
      if InFlight(c) {
        StepKeepsTransfer(c, d, xfer, w0, e0);
        if ReadsByte(c) {
          TxDoneKeepsTransfer(Snap(), d, TxContents(), xfer, written, events);
        }
      } else {
        QuietTransfer(c, TxContents(), xfer, written, events);
      }
    }
  }
}
