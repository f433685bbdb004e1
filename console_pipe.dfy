/** The blocking console pipe (`ecl::console_pipe<GBus>`): `write` and `read`
    over a generic bus driver, with every byte read echoed back.

    The bus driver is not part of this model; `GenericBus` stands in for it
    with the five calls the pipe makes. Its `Xfer` picks any status and any
    count up to the size requested, and records every call in a ghost trace,
    so the pipe's contracts hold whatever the hardware does. */
module ConsolePipe {
  import opened Ecl

  /** One call the pipe makes on the bus, with what the bus answered. */
  datatype BusCall =
    | InitCall(status: Err)
    | Lock
    | SetBuffers(tx: Option<seq<Byte>>, rx: array?<Byte>, size: nat)
    | XferCall(status: Err, moved: nat)
    | Unlock

  /** The bus calls of one non-empty transfer, in order: `lock`, `set_buffers`,
      `xfer` (answering `status` and `moved`), `unlock`. */
  function TransferCalls(tx: Option<seq<Byte>>, rx: array?<Byte>, size: nat,
                         status: Err, moved: nat): seq<BusCall>
  {
    [Lock, SetBuffers(tx, rx, size), XferCall(status, moved), Unlock]
  }

  /** `err_on_start`: the transfer failed before it started. An I/O error
      is an error during the transfer, not at its start. */
  predicate ErrOnStart(isError: Err -> bool, e: Err)
  {
    isError(e) && e != Io
  }

  /** Stores the first `n` bytes of `src` at the start of `buf`. */
  method CopyPrefix(buf: array<Byte>, src: seq<Byte>, n: nat)
    requires n <= buf.Length && n <= |src|
    modifies buf
    ensures buf[..n] == src[..n] && buf[n..] == old(buf[n..])
  {
    var i := 0;
    while i < n
      invariant 0 <= i <= n
      invariant buf[..i] == src[..i]
      invariant buf[n..] == old(buf[n..])
    {
      buf[i] := src[i];
      i := i + 1;
    }
  }

  /** The generic bus the pipe is built over. */
  class GenericBus {
    var txBuf: Option<seq<Byte>>
    var rxBuf: array?<Byte>
    var size: nat
    /** Bytes the line has yet to deliver. */
    var incoming: seq<Byte>
    /** Bytes the bus has put on the line, oldest first. */
    ghost var outgoing: seq<Byte>
    /** Every call the bus has served, oldest first. */
    ghost var trace: seq<BusCall>

    ghost predicate Valid()
      reads this
    {
      (txBuf.Some? ==> size <= |txBuf.value|) && (rxBuf != null ==> size <= rxBuf.Length)
    }

    constructor (incoming: seq<Byte>)
      ensures Valid() && this.incoming == incoming
      ensures txBuf == None && rxBuf == null && size == 0
      ensures outgoing == [] && trace == []
    {
      txBuf, rxBuf, size := None, null, 0;
      this.incoming := incoming;
      outgoing, trace := [], [];
    }

    /** Initialises the bus; the status is the hardware's. */
    method Init() returns (e: Err)
      requires Valid()
      modifies this
      ensures Valid() && trace == old(trace) + [InitCall(e)]
      ensures txBuf == old(txBuf) && rxBuf == old(rxBuf) && size == old(size)
      ensures incoming == old(incoming) && outgoing == old(outgoing)
    {
      e := *;
      trace := trace + [InitCall(e)];
    }

    method LockBus()
      requires Valid()
      modifies this
      ensures Valid() && trace == old(trace) + [Lock]
      ensures txBuf == old(txBuf) && rxBuf == old(rxBuf) && size == old(size)
      ensures incoming == old(incoming) && outgoing == old(outgoing)
    {
      trace := trace + [Lock];
    }

    method UnlockBus()
      requires Valid()
      modifies this
      ensures Valid() && trace == old(trace) + [Unlock]
      ensures txBuf == old(txBuf) && rxBuf == old(rxBuf) && size == old(size)
      ensures incoming == old(incoming) && outgoing == old(outgoing)
    {
      trace := trace + [Unlock];
    }

    method SetBuffersFor(tx: Option<seq<Byte>>, rx: array?<Byte>, n: nat)
      requires tx.Some? ==> n <= |tx.value|
      requires rx != null ==> n <= rx.Length
      modifies this
      ensures Valid() && txBuf == tx && rxBuf == rx && size == n
      ensures trace == old(trace) + [SetBuffers(tx, rx, n)]
      ensures incoming == old(incoming) && outgoing == old(outgoing)
    {
      txBuf, rxBuf, size := tx, rx, n;
      trace := trace + [SetBuffers(tx, rx, n)];
    }

    /** Runs the transfer set up last: sends up to `size` bytes of the TX
        buffer, or receives up to `size` bytes into the RX buffer, and stops
        with any status. */
    method Xfer() returns (e: Err, moved: nat)
      requires Valid()
      modifies this, rxBuf
      ensures Valid() && moved <= size
      ensures trace == old(trace) + [XferCall(e, moved)]
      ensures txBuf == old(txBuf) && rxBuf == old(rxBuf) && size == old(size)
      ensures outgoing == old(outgoing) + (if txBuf.Some? then txBuf.value[..moved] else [])
      ensures rxBuf == null ==> incoming == old(incoming)
      ensures rxBuf != null ==>
                && moved <= |old(incoming)|
                && rxBuf[..moved] == old(incoming)[..moved]
                && rxBuf[moved..] == old(rxBuf[moved..])
                && incoming == old(incoming)[moved..]
    {
      e := *;
      if rxBuf == null {
        moved :| moved <= size;
      } else {
        moved :| moved <= size && moved <= |incoming|;
        CopyPrefix(rxBuf, incoming, moved);
        incoming := incoming[moved..];
      }
      if txBuf.Some? {
        outgoing := outgoing + txBuf.value[..moved];
      }
      trace := trace + [XferCall(e, moved)];
    }
  }

  /** A console pipe over `bus`. `isError` is the library's `is_error`,
      which is not part of this model beyond `Ok` not being an error. */
  class Pipe {
    const bus: GenericBus
    const isError: Err -> bool
    var last: Err

    ghost predicate Valid()
      reads this, bus
    {
      !isError(Ok) && bus.Valid()
    }

    /** The pipe starts with no error recorded. */
    constructor (bus: GenericBus, isError: Err -> bool)
      requires !isError(Ok) && bus.Valid()
      ensures Valid() && this.bus == bus && this.isError == isError
      ensures last == Ok && !ErrOnStart(isError, LastError())
    {
      this.bus := bus;
      this.isError := isError;
      last := Ok;
    }

    /** `last_error`. */
    function LastError(): Err
      reads this
    {
      last
    }

    /** `init`: initialises the bus and records its status. */
    method Init() returns (e: Err)
      requires Valid()
      modifies this, bus
      ensures Valid() && e == LastError()
      ensures bus.trace == old(bus.trace) + [InitCall(e)]
      ensures bus.incoming == old(bus.incoming) && bus.outgoing == old(bus.outgoing)
    {
      e := bus.Init();
      last := e;
    }

    /** The bus calls `write` and `read` share: lock, set the buffers, run
        the transfer and record its status, unlock. */
    method BusTransfer(tx: Option<seq<Byte>>, rx: array?<Byte>, size: nat)
      returns (e: Err, moved: nat)
      requires Valid()
      requires tx.Some? ==> size <= |tx.value|
      requires rx != null ==> size <= rx.Length
      modifies this, bus, rx
      ensures Valid() && moved <= size && last == e
      ensures bus.trace == old(bus.trace) + TransferCalls(tx, rx, size, e, moved)
      ensures bus.outgoing == old(bus.outgoing) + (if tx.Some? then tx.value[..moved] else [])
      ensures rx == null ==> bus.incoming == old(bus.incoming)
      ensures rx != null ==>
                && moved <= |old(bus.incoming)|
                && rx[..moved] == old(bus.incoming)[..moved]
                && rx[moved..] == old(rx[moved..])
                && bus.incoming == old(bus.incoming)[moved..]
    {
      bus.LockBus();
      bus.SetBuffersFor(tx, rx, size);
      e, moved := bus.Xfer();
      last := e;
      bus.UnlockBus();
    }

    /** `write`: sends `data[..count]` in one bus transfer. Returns -1 if the
        transfer failed at its start, else the count the bus sent. `sent`
        and `status` are what the bus answered. */
    method Write(data: seq<Byte>, count: nat) returns (r: int, ghost status: Err, ghost sent: nat)
      requires Valid() && count <= |data|
      modifies this, bus
      ensures Valid() && bus.incoming == old(bus.incoming)
      ensures count == 0 ==>
                && r == 0 && sent == 0 && last == old(last)
                && bus.trace == old(bus.trace) && bus.outgoing == old(bus.outgoing)
      ensures count > 0 ==>
                && sent <= count && last == status
                && (r == -1 <==> ErrOnStart(isError, status))
                && (r != -1 ==> r == sent)
                && bus.trace == old(bus.trace) + TransferCalls(Some(data[..count]), null, count, status, sent)
                && bus.outgoing == old(bus.outgoing) + data[..sent]
    {
      if count == 0 {
        return 0, last, 0;
      }
      var e, n := BusTransfer(Some(data[..count]), null, count);
      r := n;
      status, sent := e, n;
      if ErrOnStart(isError, last) {
        r := -1;
      }
    }

    /** `read`: receives up to `size` bytes into `buffer` in one bus
        transfer, then echoes what was received through `write`, whatever
        the outcome. Returns -1 if the transfer failed at its start, else the
        count received. `got` and `status` are what the bus answered, `echo`
        and `echoed` what it answered to the echo. */
    method Read(buffer: array<Byte>, size: nat)
      returns (r: int, ghost status: Err, ghost got: nat, ghost echo: Err, ghost echoed: nat)
      requires Valid() && size <= buffer.Length
      modifies this, bus, buffer
      ensures Valid()
      ensures size == 0 ==>
                && r == 0 && last == old(last) && buffer[..] == old(buffer[..])
                && bus.trace == old(bus.trace) && bus.outgoing == old(bus.outgoing)
                && bus.incoming == old(bus.incoming)
      ensures size > 0 ==>
                && got <= size && got <= |old(bus.incoming)|
                && (r == -1 <==> ErrOnStart(isError, status))
                && (r != -1 ==> r == got)
                && buffer[..got] == old(bus.incoming)[..got]
                && buffer[got..] == old(buffer[got..])
                && bus.incoming == old(bus.incoming)[got..]
                && bus.trace == old(bus.trace) + TransferCalls(None, buffer, size, status, got)
                              + (if got == 0 then []
                                 else TransferCalls(Some(buffer[..got]), null, got, echo, echoed))
                && echoed <= got
                && bus.outgoing == old(bus.outgoing) + buffer[..echoed]
                && LastError() == if got == 0 then status else echo
    {
      if size == 0 {
        return 0, last, 0, last, 0;
      }
      var e, n := BusTransfer(None, buffer, size);
      r := n;
      status, got := e, n;
      if ErrOnStart(isError, last) {
        r := -1;
      }
      var echoResult;
      echoResult, echo, echoed := Write(buffer[..], n);
      assert buffer[..got][..echoed] == buffer[..echoed];
    }
  }
}
