/**
 * The UART driver: a 64-byte receive ring buffer per port (one slot kept
 * free, so at most 63 bytes are held), the baud-rate divisor computation,
 * the line-ending expansion of UARTSendStr and the port dispatch of
 * UARTGetChar. Ports 0, 1 and 3 exist; every other port number is ignored.
 */
module Uart {
  import opened Integers

  /** UART_BUFSIZE */
  const UART_BUFSIZE: nat := 0x40

  /** UARTFifo_t: `buffer[head]` is the next free slot, `buffer[tail]` the oldest byte. */
  class UartFifo {
    const buffer: array<bv8>
    var head: nat
    var tail: nat

    ghost predicate Valid()
      reads this
    {
      buffer.Length == UART_BUFSIZE && head < UART_BUFSIZE && tail < UART_BUFSIZE
    }

    /** The bytes held, oldest first: from `tail` up to `head`, wrapping round. */
    ghost function Contents(): (q: seq<bv8>)
      requires Valid()
      reads this, buffer
      ensures |q| < UART_BUFSIZE
      ensures |q| == (head - tail) % UART_BUFSIZE
    {
      if tail <= head then buffer[tail..head] else buffer[tail..] + buffer[..head]
    }

    /** A zero-initialised FIFO: empty. */
    constructor ()
      ensures Valid() && fresh(buffer) && head == 0 && tail == 0 && Contents() == []
    {
      buffer := new bv8[UART_BUFSIZE](_ => 0);
      head, tail := 0, 0;
    }

    /**
     * fifo_put: on a full FIFO nothing changes and the result is false;
     * otherwise `c` goes into the slot at `head`, `head` advances by one
     * modulo UART_BUFSIZE, and no other slot changes.
     */
    method Put(c: bv8) returns (ok: bool)
      requires Valid()
      modifies this`head, buffer
      ensures Valid() && tail == old(tail)
      ensures ok <==> (old(head) + 1) % UART_BUFSIZE != tail
      ensures ok <==> |old(Contents())| < UART_BUFSIZE - 1
      ensures !ok ==> head == old(head) && buffer[..] == old(buffer[..])
      ensures ok ==> head == (old(head) + 1) % UART_BUFSIZE && buffer[..] == old(buffer[..])[old(head) := c]
      ensures Contents() == if ok then old(Contents()) + [c] else old(Contents())
    {
      var next := (head + 1) % UART_BUFSIZE;
      if next == tail {
        return false;
      }
      ghost var q := Contents();
      ghost var h := head;
      buffer[head] := c;
      head := next;
      if tail <= h && h + 1 < UART_BUFSIZE {
        assert buffer[tail..head] == old(buffer[tail..h]) + [c];
      } else if tail <= h {
        assert buffer[tail..] == old(buffer[tail..h]) + [c];
      } else {
        assert buffer[tail..] == old(buffer[tail..]);
        assert buffer[..head] == old(buffer[..h]) + [c];
      }
      return true;
    }

    /**
     * fifo_get: on an empty FIFO the result is false and `pc`, the caller's
     * character, comes back unchanged; otherwise the oldest byte is removed
     * and returned.
     */
    method Get(pc: bv8) returns (ok: bool, c: bv8)
      requires Valid()
      modifies this`tail
      ensures Valid() && head == old(head)
      ensures ok <==> old(head) != old(tail)
      ensures ok <==> old(Contents()) != []
      ensures !ok ==> c == pc && tail == old(tail)
      ensures ok ==> c == old(Contents())[0] && tail == (old(tail) + 1) % UART_BUFSIZE
      ensures Contents() == if ok then old(Contents())[1..] else old(Contents())
    {
      if head == tail {
        return false, pc;
      }
      ghost var q := Contents();
      var next := (tail + 1) % UART_BUFSIZE;
      c := buffer[tail];
      tail := next;
      if old(tail) < head {
        assert Contents() == q[1..];
      } else if next == 0 {
        assert Contents() == buffer[..head];
        assert q == buffer[UART_BUFSIZE - 1..] + buffer[..head];
      } else {
        assert buffer[old(tail)..] == [c] + buffer[tail..];
      }
      return true, c;
    }
  }

  /** The port numbers the driver serves. */
  predicate IsUartPort(port: uint32)
  {
    port == 0 || port == 1 || port == 3
  }

  /** The receive FIFOs UART0Buffer, UART1Buffer and UART3Buffer. */
  class Uart {
    const rx0: UartFifo
    const rx1: UartFifo
    const rx3: UartFifo

    ghost predicate Valid()
      reads this, rx0, rx1, rx3
    {
      && rx0.Valid() && rx1.Valid() && rx3.Valid()
      && rx0 != rx1 && rx0 != rx3 && rx1 != rx3
      && rx0.buffer != rx1.buffer && rx0.buffer != rx3.buffer && rx1.buffer != rx3.buffer
    }

    constructor ()
      ensures Valid() && fresh(rx0) && fresh(rx1) && fresh(rx3)
      ensures fresh(rx0.buffer) && fresh(rx1.buffer) && fresh(rx3.buffer)
      ensures rx0.Contents() == [] && rx1.Contents() == [] && rx3.Contents() == []
    {
      rx0 := new UartFifo();
      rx1 := new UartFifo();
      rx3 := new UartFifo();
    }

    /** The switch of UARTGetChar: the FIFO of a served port, null for any other. */
    function FifoOf(port: uint32): (f: UartFifo?)
      reads this
      ensures f != null <==> IsUartPort(port)
    {
      if port == 0 then rx0 else if port == 1 then rx1 else if port == 3 then rx3 else null
    }

    /**
     * UARTGetChar: on a port the driver does not serve it returns '\0' at
     * once. Otherwise it polls the port's FIFO until a byte is there. When
     * the FIFO starts empty, `arrival` is the byte the receive interrupt
     * puts into it before the next poll.
     */
    method GetChar(port: uint32, arrival: bv8) returns (c: bv8)
      requires Valid()
      modifies if IsUartPort(port) then {FifoOf(port), FifoOf(port).buffer} else {}
      ensures Valid()
      ensures !IsUartPort(port) ==> c == 0
      ensures IsUartPort(port) ==>
        var f := FifoOf(port);
        && c == (if old(f.Contents()) != [] then old(f.Contents())[0] else arrival)
        && f.Contents() == if old(f.Contents()) != [] then old(f.Contents())[1..] else []
    {
      c := 0;
      var f := FifoOf(port);
      if f != null {
        var ok;
        ghost var q := f.Contents();
        ok, c := f.Get(c);
        while !ok
          invariant f.Valid() && f in {rx0, rx1, rx3} && Valid()
          invariant !ok ==> q == [] && f.Contents() == []
          invariant ok ==> c == (if q != [] then q[0] else arrival) && f.Contents() == if q != [] then q[1..] else []
          decreases if ok then 0 else 1
        {
          var _ := f.Put(arrival);
          ok, c := f.Get(c);
        }
      }
    }
  }

  /** The values written to a port's divisor latches, DLM (high) and DLL (low). */
  datatype DivisorLatch = DivisorLatch(dlm: uint8, dll: uint8)

  /** The two PCLKSEL bits of a port: bits 6-7 of PCLKSEL0 for UART0, 8-9 for UART1, 18-19 of PCLKSEL1 for UART3. */
  function PclkDiv(port: uint32, pclksel0: bv32, pclksel1: bv32): (d: nat)
    requires IsUartPort(port)
    ensures d < 4
  {
    var bits := if port == 0 then (pclksel0 >> 6) & 3
                else if port == 1 then (pclksel0 >> 8) & 3
                else (pclksel1 >> 18) & 3;
    bits as nat
  }

  /** The peripheral clock for a PCLKSEL value; the switch's default case divides by 4. */
  function Pclk(systemCoreClock: uint32, pclkdiv: nat): uint32
  {
    match pclkdiv
    case 1 => systemCoreClock
    case 2 => systemCoreClock / 2
    case 3 => systemCoreClock / 8
    case _ => systemCoreClock / 4
  }

  /** The four PCLKSEL settings select a quarter, the whole, a half and an eighth of the core clock. */
  lemma PclkDividers(clock: uint32)
    ensures Pclk(clock, 0) == clock / 4 && Pclk(clock, 1) == clock
    ensures Pclk(clock, 2) == clock / 2 && Pclk(clock, 3) == clock / 8
  {
  }

  /** Fdiv: the baud-rate divisor, the peripheral clock over 16 over the baud rate. */
  function BaudDivisor(pclk: uint32, baudrate: uint32): (fdiv: uint32)
    requires baudrate > 0
    ensures fdiv * baudrate * 16 <= pclk
    ensures pclk < (fdiv + 1) * baudrate * 16
  {
    var q := pclk / 16;
    var fdiv := q / baudrate;
    assert fdiv * baudrate <= q < (fdiv + 1) * baudrate;
    assert q * 16 <= pclk < (q + 1) * 16;
    fdiv
  }

  /**
   * DLM gets Fdiv / 256 and DLL gets Fdiv % 256, each through an 8-bit
   * register, so together they hold Fdiv modulo 65536, and Fdiv itself
   * whenever it fits in 16 bits.
   */
  function DivisorRegisters(fdiv: uint32): (l: DivisorLatch)
    ensures l.dlm * 256 + l.dll == fdiv % 0x1_0000
    ensures fdiv < 0x1_0000 ==> l.dlm * 256 + l.dll == fdiv
  {
    var l := DivisorLatch((fdiv / 256) % 256, fdiv % 256);
    assert fdiv == (fdiv / 256) * 256 + fdiv % 256;
    assert fdiv / 256 == (fdiv / 256 / 256) * 256 + (fdiv / 256) % 256;
    assert fdiv == (fdiv / 0x1_0000) * 0x1_0000 + l.dlm * 256 + l.dll;
    l
  }

  /** The divisor latch values programmed for a served port. */
  function PortDivisor(port: uint32, baudrate: uint32, systemCoreClock: uint32,
                       pclksel0: bv32, pclksel1: bv32): DivisorLatch
    requires IsUartPort(port) && baudrate > 0
  {
    DivisorRegisters(BaudDivisor(Pclk(systemCoreClock, PclkDiv(port, pclksel0, pclksel1)), baudrate))
  }

  /** What UARTInit returns and which divisor latch values it programs (none for an unknown port). */
  datatype InitResult = InitResult(returned: uint32, latch: DivisorLatch, programmed: bool)

  /**
   * The clock arithmetic of UARTInit: ports 0, 1 and 3 get their divisor
   * latches programmed and the result 1; any other port is left alone and
   * the result is 0. The pin, line-control, FIFO and interrupt register
   * writes are not modelled.
   */
  function UartInit(port: uint32, baudrate: uint32, systemCoreClock: uint32,
                    pclksel0: bv32, pclksel1: bv32): (r: InitResult)
    requires IsUartPort(port) ==> baudrate > 0
    ensures r.returned == 1 <==> IsUartPort(port)
    ensures r.returned == 0 <==> !IsUartPort(port)
    ensures r.programmed <==> IsUartPort(port)
    ensures r.programmed ==> r.latch == PortDivisor(port, baudrate, systemCoreClock, pclksel0, pclksel1)
  {
    if IsUartPort(port) then
      InitResult(1, PortDivisor(port, baudrate, systemCoreClock, pclksel0, pclksel1), true)
    else
      InitResult(0, DivisorLatch(0, 0), false)
  }

  datatype Option<T> = None | Some(value: T)

  /**
   * UARTBaudrate: the same divisor computation as UARTInit for a served
   * port, and nothing for any other. The result is the pair of values
   * written to the divisor latches, if any.
   */
  function UartBaudrate(port: uint32, baudrate: uint32, systemCoreClock: uint32,
                        pclksel0: bv32, pclksel1: bv32): (r: Option<DivisorLatch>)
    requires IsUartPort(port) ==> baudrate > 0
    ensures r.Some? <==> IsUartPort(port)
    ensures r.Some? ==> r.value == UartInit(port, baudrate, systemCoreClock, pclksel0, pclksel1).latch
  {
    if IsUartPort(port) then Some(PortDivisor(port, baudrate, systemCoreClock, pclksel0, pclksel1)) else None
  }

  /**
   * The characters UARTSendStr puts on the line for `s`: each character in
   * order, with a carriage return sent before every line feed.
   */
  function WithCr(s: seq<char>): (t: seq<char>)
    ensures |t| >= |s|
    ensures s != [] ==> t != [] && t[|t| - 1] == s[|s| - 1]
  {
    if s == [] then []
    else
      var last := s[|s| - 1];
      WithCr(s[..|s| - 1]) + if last == '\n' then "\r\n" else [last]
  }

  /** The receiving side's view: every "\r\n" read back as "\n". */
  function WithoutCr(t: seq<char>): seq<char>
  {
    if t == [] then []
    else if |t| >= 2 && t[|t| - 2] == '\r' && t[|t| - 1] == '\n' then WithoutCr(t[..|t| - 2]) + "\n"
    else WithoutCr(t[..|t| - 1]) + [t[|t| - 1]]
  }

  /** Dropping the inserted carriage returns gives back the string that was sent. */
  lemma {:induction false} WithoutCrInvertsWithCr(s: seq<char>)
    ensures WithoutCr(WithCr(s)) == s
  {
    if s != [] {
      var p, last := s[..|s| - 1], s[|s| - 1];
      WithoutCrInvertsWithCr(p);
      var u := WithCr(p);
      var t := WithCr(s);
      if last == '\n' {
        assert t == u + "\r\n";
        assert t[..|t| - 2] == u;
        assert WithoutCr(t) == WithoutCr(u) + "\n";
      } else {
        assert t == u + [last];
        assert t[..|t| - 1] == u;
        assert WithoutCr(t) == WithoutCr(u) + [last];
      }
      assert s == p + [last];
    }
  }

  /** Every line feed in `t` comes straight after a carriage return. */
  predicate CrBeforeLf(t: seq<char>)
  {
    forall i :: 0 <= i < |t| && t[i] == '\n' ==> i > 0 && t[i - 1] == '\r'
  }

  /** On the line, every line feed comes straight after a carriage return. */
  lemma {:induction false} CrBeforeEveryLf(s: seq<char>)
    ensures CrBeforeLf(WithCr(s))
  {
    if s != [] {
      var p, last := s[..|s| - 1], s[|s| - 1];
      CrBeforeEveryLf(p);
      var u := WithCr(p);
      var t := WithCr(s);
      var tail := if last == '\n' then "\r\n" else [last];
      assert t == u + tail;
      forall i | 0 <= i < |t| && t[i] == '\n'
        ensures i > 0 && t[i - 1] == '\r'
      {
        if i < |u| {
          assert CrBeforeLf(u);
          assert u[i] == t[i] == '\n';
          assert i > 0 && u[i - 1] == '\r';
          assert u[i - 1] == t[i - 1];
        } else {
          assert tail[i - |u|] == '\n';
          assert last == '\n' && i - |u| == 1;
          assert t[i - 1] == tail[0];
        }
      }
    }
  }

  /** The number of line feeds in a string. */
  function LineFeeds(s: seq<char>): nat
  {
    if s == [] then 0 else LineFeeds(s[..|s| - 1]) + if s[|s| - 1] == '\n' then 1 else 0
  }

  /** One extra character goes out per line feed. */
  lemma {:induction false} WithCrLength(s: seq<char>)
    ensures |WithCr(s)| == |s| + LineFeeds(s)
  {
    if s != [] {
      WithCrLength(s[..|s| - 1]);
    }
  }

  /**
   * UARTSendStr: `s` is the string up to its terminating NUL; the result is
   * what is written to the port's transmit register, in order. On a port
   * the driver does not serve nothing is sent.
   */
  method SendStr(port: uint32, s: seq<char>) returns (sent: seq<char>)
    requires '\0' !in s
    ensures sent == if IsUartPort(port) then WithCr(s) else []
  {
    sent := [];
    if IsUartPort(port) {
      var length := |s|;
      var i := 0;
      while length != 0
        invariant 0 <= i <= |s| && i + length == |s|
        invariant sent == WithCr(s[..i])
      {
        if s[i] == '\n' {
          sent := sent + ['\r'];
        }
        sent := sent + [s[i]];
        assert s[..i + 1][..i] == s[..i];
        i := i + 1;
        length := length - 1;
      }
      assert s[..i] == s;
    }
  }

  /** UARTPutChar: the character goes out on a served port, and nothing on any other. */
  function PutChar(port: uint32, c: char): (sent: seq<char>)
    ensures IsUartPort(port) ==> sent == [c]
    ensures !IsUartPort(port) ==> sent == []
  {
    if IsUartPort(port) then [c] else []
  }
}
