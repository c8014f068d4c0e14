/** Interrupt-driven serial reception (examples/serial_nonblocking.rs): three
    program-wide cells shared between the main context and the USART1 interrupt
    handler — an optional UART handle, a ten-byte receive buffer and a write
    index. Every access runs inside a critical section, so each access is one
    atomic step here. */
module SerialNonblocking {
  import opened Uint

  const BUF_SIZE: nat := 10

  datatype Option<T> = None | Some(value: T)

  /** What the handler does to the UART, in order. */
  datatype UsartEvent = ReadNotEmptyCleared | ByteRead(b: u8)

  /** The part of a USART the handler uses: the receive data register and the
      "read data register not empty" interrupt flag. */
  class Usart {
    var rdr: u8
    var readNotEmpty: bool
    ghost var events: seq<UsartEvent>

    constructor ()
      ensures rdr == 0 && !readNotEmpty && events == []
    {
      rdr := 0;
      readNotEmpty := false;
      events := [];
    }

    /** A byte arrives on the line: the hardware latches it and raises the flag. */
    method Arrive(b: u8)
      modifies this`rdr, this`readNotEmpty
      ensures rdr == b && readNotEmpty
    {
      rdr := b;
      readNotEmpty := true;
    }

    /** `clear_interrupt(UsartInterrupt::ReadNotEmpty)` */
    method ClearReadNotEmpty()
      modifies this`readNotEmpty, this`events
      ensures !readNotEmpty
      ensures events == old(events) + [ReadNotEmptyCleared]
    {
      readNotEmpty := false;
      events := events + [ReadNotEmptyCleared];
    }

    /** `read_one`: the received byte. */
    method ReadOne() returns (b: u8)
      modifies this`events
      ensures b == rdr
      ensures events == old(events) + [ByteRead(b)]
    {
      b := rdr;
      events := events + [ByteRead(b)];
    }
  }

  /** The receive buffer and its write index, as values. */
  datatype RxState = RxState(buf: seq<u8>, idx: nat)

  /** `READ_BUF` and `READ_I` as the program starts: ten zero bytes, index 0. */
  function Initial(): RxState
  {
    RxState(seq(BUF_SIZE, _ => 0), 0)
  }

  /** One firing of the handler with byte `b` received: store at the index, advance it. */
  function Receive(s: RxState, b: u8): (t: RxState)
    requires s.idx < |s.buf|
    ensures t.idx == s.idx + 1 && |t.buf| == |s.buf|
    ensures t.buf[s.idx] == b
    ensures forall i :: 0 <= i < |s.buf| && i != s.idx ==> t.buf[i] == s.buf[i]
  {
    RxState(s.buf[s.idx := b], s.idx + 1)
  }

  /** Successive firings receiving `bs`, in arrival order. */
  function ReceiveAll(s: RxState, bs: seq<u8>): RxState
    requires s.idx + |bs| <= |s.buf|
    decreases |bs|
  {
    if bs == [] then s else ReceiveAll(Receive(s, bs[0]), bs[1..])
  }

  /** After firings receiving `bs` the index has moved by `|bs|`, the bytes sit
      behind the old index in arrival order and nothing else has changed. */
  lemma {:induction false} ReceiveAllStores(s: RxState, bs: seq<u8>)
    requires s.idx + |bs| <= |s.buf|
    ensures var t := ReceiveAll(s, bs);
      t.idx == s.idx + |bs| && |t.buf| == |s.buf| &&
      t.buf[s.idx..t.idx] == bs &&
      t.buf[..s.idx] == s.buf[..s.idx] &&
      t.buf[t.idx..] == s.buf[t.idx..]
    decreases |bs|
  {
    if bs != [] {
      var s' := Receive(s, bs[0]);
      ReceiveAllStores(s', bs[1..]);
      var t := ReceiveAll(s', bs[1..]);
      assert t == ReceiveAll(s, bs);
      assert t.buf[s.idx] == s'.buf[s.idx] == bs[0] by {
        assert t.buf[..s'.idx] == s'.buf[..s'.idx];
        assert t.buf[..s'.idx][s.idx] == t.buf[s.idx];
      }
      assert t.buf[s.idx..t.idx] == [bs[0]] + t.buf[s'.idx..t.idx];
      assert t.buf[..s.idx] == t.buf[..s'.idx][..s.idx];
      assert s'.buf[..s'.idx][..s.idx] == s.buf[..s.idx];
    }
  }

  /** From the initial state, k <= 10 firings leave the index at k, the k bytes
      at the front of the buffer in arrival order, and zeros behind them. */
  lemma FiringsFromStart(bs: seq<u8>)
    requires |bs| <= BUF_SIZE
    ensures ReceiveAll(Initial(), bs) == RxState(bs + seq(BUF_SIZE - |bs|, _ => 0), |bs|)
  {
    ReceiveAllStores(Initial(), bs);
    var t := ReceiveAll(Initial(), bs);
    assert t.buf == t.buf[0..|bs|] + t.buf[|bs|..];
  }

  /** Ten firings fill the buffer; the index then equals its length, so an
      eleventh firing would index past the end. */
  lemma TenFiringsFill(bs: seq<u8>)
    requires |bs| == BUF_SIZE
    ensures ReceiveAll(Initial(), bs) == RxState(bs, BUF_SIZE)
  {
    FiringsFromStart(bs);
  }

  /** The `UART`, `READ_BUF` and `READ_I` statics. */
  class Shared {
    var uart: Option<Usart>
    const readBuf: array<u8>
    var readI: nat

    ghost predicate Valid()
      reads this
    {
      readBuf.Length == BUF_SIZE && readI <= BUF_SIZE
    }

    function State(): RxState
      reads this, readBuf
    {
      RxState(readBuf[..], readI)
    }

    /** The statics' initialisers: no handle, ten zero bytes, index 0. */
    constructor ()
      ensures Valid() && fresh(readBuf)
      ensures uart == None && State() == Initial()
    {
      uart := None;
      readBuf := new u8[BUF_SIZE](_ => 0);
      readI := 0;
      new;
      assert readBuf[..] == seq(BUF_SIZE, _ => 0);
    }

    /** Startup: `UART.borrow(cs).replace(Some(uart))` moves the configured
        handle into the cell. */
    method InstallUart(u: Usart)
      modifies this`uart
      ensures uart == Some(u)
    {
      uart := Some(u);
    }

    /** The `USART1` interrupt handler. `unwrap` demands an installed handle;
        the `buf[i_val]` index demands `i_val < BUF_SIZE` (the `i_val == BUF_SIZE`
        branch of the handler is an empty `todo` and does nothing before the write). The flag is cleared
        before the byte is read. */
    method Usart1()
      requires Valid() && uart.Some?
      requires readI < BUF_SIZE
      modifies uart.value, readBuf, this`readI
      ensures Valid()
      ensures State() == Receive(old(State()), old(uart.value.rdr))
      ensures uart.value.events == old(uart.value.events) + [ReadNotEmptyCleared, ByteRead(old(uart.value.rdr))]
      ensures !uart.value.readNotEmpty && uart.value.rdr == old(uart.value.rdr)
    {
      var u := uart.value;
      u.ClearReadNotEmpty();
      var iVal := readI;
      if iVal == BUF_SIZE {
        // "signal end of read" is still a todo: nothing happens here
      }
      var b := u.ReadOne();
      readBuf[iVal] := b;
      readI := iVal + 1;
    }
  }
}
