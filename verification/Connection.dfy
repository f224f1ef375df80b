/**
 One TCP connection (src/tcp_conn.cc), as a value: the fields of TCPConn, the two operation slots of its
 socket, and the history its properties speak of.  A handler that calls back into user code is split at
 the callback, so that anything may happen while the callback runs (see ConnectionRuns).
 */
module Connections {
  import opened ByteBuffers

  datatype Status = Disconnected | Connecting | Connected | Disconnecting

  /** The write slot of the socket.  `offered` is the memory handed to async_write_some. */
  datatype WriteOp = NoWrite | Writing(offered: seq<byte>) | Wrote(bytes: nat) | WriteFailed

  /** The read slot of the socket.  `room` is the size of the memory handed to async_read_some. */
  datatype ReadOp = NoRead | Reading(room: nat) | Got(bytes: nat) | ReadFailed(eof: bool)

  datatype Event =
    | ConnectedCb
    | MessageCb
    | ClosingCb(toUser: bool, toOwner: bool)
    | HighWaterCb(size: nat)

  const DEFAULT_HIGH_WATER_MARK: nat := 32 * 1024 * 1024

  /** The send side: async_writing_, the two swapping buffers, the write slot, and the history of bytes. */
  datatype Outbound = Outbound(
    asyncWriting: bool,
    write: Buf,
    writing: Buf,
    writeOp: WriteOp,
    accepted: seq<byte>,   // every byte SendInLoop let in
    wire: seq<byte>,       // every byte the kernel took
    acked: seq<byte>)      // every byte HandleWrite was told about
  {
    ghost predicate Valid() {
      write.Valid() && writing.Valid()
    }

    function Pending(): nat
      requires Valid()
    {
      write.Size() + writing.Size()
    }

    function AsyncWrite(): Outbound
      requires Valid()
    {
      if asyncWriting || writing.Size() <= 0 then this
      else this.(asyncWriting := true, writeOp := Writing(writing.Unread()))
    }

    function Swap(): Outbound {
      this.(writing := write, write := writing)
    }

    function Send(data: seq<byte>): Outbound
      requires Valid()
    {
      WriteAppends(writing, data);
      WriteAppends(write, data);
      if !asyncWriting then
        var o := if write.Size() > 0 then Swap() else this;
        o.(writing := o.writing.Write(data), accepted := accepted + data).AsyncWrite()
      else
        this.(write := write.Write(data), accepted := accepted + data)
    }

    function Released(): Outbound {
      this.(asyncWriting := false, writeOp := NoWrite)
    }

    function Written(n: nat): Outbound
      requires Valid() && n <= writing.Size()
    {
      var o := Released().(writing := writing.ReadBytes(n), acked := acked + writing.Unread()[..n]);
      if o.writing.Size() > 0 then o.AsyncWrite()
      else if o.write.Size() > 0 then o.Swap().AsyncWrite()
      else o
    }

    function KernelWrote(n: nat): Outbound
      requires writeOp.Writing? && n <= |writeOp.offered|
    {
      this.(writeOp := Wrote(n), wire := wire + writeOp.offered[..n])
    }
  }

  datatype Callbacks = Callbacks(mark: nat, highWater: bool, conn: bool, close: bool)

  datatype Conn = Conn(
    status: Status,
    open: bool,
    fns: Callbacks,
    recv: Buf,
    readOp: ReadOp,
    out: Outbound,
    events: seq<Event>)
  {
    ghost predicate Valid() {
      recv.Valid() && out.Valid()
    }

    function Emit(e: Event): Conn {
      this.(events := events + [e])
    }

    function AsyncRead(): Conn
      requires Valid()
    {
      this.(readOp := Reading(recv.ValidSize()))
    }

    function SendInLoop(data: seq<byte>): Conn
      requires Valid()
    {
      SendAppends(out, data);
      if !open then this
      else
        var c := this.(out := out.Send(data));
        if out.asyncWriting && c.out.Pending() > fns.mark && fns.highWater then c.Emit(HighWaterCb(c.out.Pending())) else c
    }

    /** HandleClose up to and including its callbacks. */
    function BeginClose(): Conn {
      if status == Disconnected then this
      else this.(open := false, status := Disconnecting).Emit(ClosingCb(fns.conn, fns.close))
    }

    /** HandleClose after its callbacks. */
    function EndClose(): Conn {
      this.(status := Disconnected)
    }

    function BeginError(): Conn {
      this.(status := Disconnecting).BeginClose()
    }

    function BeginAttach(): Conn {
      this.(status := Connected).Emit(ConnectedCb)
    }

    /** HandleRead up to and including its callback. */
    function BeginRead(): Conn
      requires readOp.Got? || readOp.ReadFailed?
    {
      var c := this.(readOp := NoRead);
      match readOp
      case ReadFailed(eof) =>
        if eof then c.(status := Disconnecting).BeginClose() else c.BeginError()
      case Got(n) => c.(recv := recv.WriteBytes(n)).Emit(MessageCb)
    }

    /** HandleWrite; its only callbacks are those of HandleClose. */
    function BeginWritten(): Conn
      requires Valid()
      requires out.writeOp.WriteFailed? || (out.writeOp.Wrote? && out.writeOp.bytes <= out.writing.Size())
    {
      match out.writeOp
      case WriteFailed => this.(out := out.Released()).BeginError()
      case Wrote(n) => this.(out := out.Written(n))
    }

    function KernelGot(data: seq<byte>): Conn
      requires Valid() && readOp.Reading? && |data| <= recv.ValidSize()
    {
      this.(readOp := Got(|data|), recv := recv.Fill(data))
    }
  }

  /** HandleClose does nothing to a connection that is Disconnected already, and closes and notifies in any other status. */
  lemma CloseGuard(c: Conn)
    ensures c.status == Disconnected ==> c.BeginClose() == c
    ensures c.status != Disconnected ==>
      var d := c.BeginClose();
      !d.open && d.status == Disconnecting && d.events == c.events + [ClosingCb(c.fns.conn, c.fns.close)] &&
      d.out == c.out && d.recv == c.recv && d.readOp == c.readOp && d.EndClose().status == Disconnected
  {
  }

  function NewOutbound(): Outbound {
    Outbound(false, Fresh(INITIAL_CAPACITY), Fresh(INITIAL_CAPACITY), NoWrite, [], [], [])
  }

  /** A connection as its constructor leaves it. */
  function NewConn(fns: Callbacks): Conn {
    Conn(Disconnected, true, fns, Fresh(INITIAL_CAPACITY), NoRead, NewOutbound(), [])
  }

  // ------------------------------------------------------------------------------------------------
  // The send side
  // ------------------------------------------------------------------------------------------------

  /** The write slot and the flag agree, and the memory lent to the kernel is still the unread stretch. */
  ghost predicate SlotInv(o: Outbound) {
    o.Valid() &&
    (o.asyncWriting <==> o.writeOp != NoWrite) &&
    (o.asyncWriting ==> o.writing.Size() > 0) &&
    (o.writeOp.Writing? ==> o.writeOp.offered == o.writing.Unread()) &&
    (o.writeOp.Wrote? ==> 1 <= o.writeOp.bytes <= o.writing.Size())
  }

  /** No write in flight and nothing left to write. */
  ghost predicate AtRest(o: Outbound)
    requires o.Valid()
  {
    !o.asyncWriting && o.writing.Size() == 0 && o.write.Size() == 0
  }

  ghost function InKernel(o: Outbound): seq<byte>
    requires SlotInv(o)
  {
    if o.writeOp.Wrote? then o.writing.Unread()[..o.writeOp.bytes] else []
  }

  /** Acknowledged, then in flight, then waiting: nothing is lost, doubled or reordered. */
  ghost predicate StreamInv(o: Outbound)
    requires SlotInv(o)
  {
    o.acked + o.writing.Unread() + o.write.Unread() == o.accepted &&
    o.wire == o.acked + InKernel(o)
  }

  /** The two send buffers are never normalised, so their cursors count lifetime bytes. */
  ghost predicate CursorInv(o: Outbound)
    requires o.Valid()
  {
    o.writing.wpos + o.write.wpos == |o.accepted| &&
    o.writing.rpos + o.write.rpos == |o.acked| &&
    Amortised(o.writing) && Amortised(o.write)
  }

  /** Everything that is always true of the send side of a connection. */
  ghost predicate SendInv(o: Outbound, open: bool) {
    SlotInv(o) && StreamInv(o) && CursorInv(o) && (open ==> o.asyncWriting || AtRest(o))
  }

  /** A connection that has sent nothing, whatever its two empty buffers look like. */
  lemma EmptyOutboundSendInv(f: Buf)
    requires f.Valid() && f.rpos == 0 && f.wpos == 0 && Amortised(f)
    ensures SendInv(Outbound(false, f, f, NoWrite, [], [], []), true)
  {
    assert f.Unread() == [] && f.Size() == 0;
    var none: seq<byte> := [];
    assert none + f.Unread() + f.Unread() == none;
    assert none + none == none;
  }

  lemma NewOutboundSendInv()
    ensures SendInv(NewOutbound(), true)
  {
    hide SendInv;
    var f := Fresh(INITIAL_CAPACITY);
    EmptyOutboundSendInv(f);
  }

  lemma SendAppends(o: Outbound, data: seq<byte>)
    requires o.Valid()
    ensures o.Send(data).Valid()
  {
    WriteAppends(o.writing, data);
    WriteAppends(o.write, data);
  }

  /** What a send does, in terms of the laws of Write alone; the swap of lines 143-145 never happens. */
  lemma SendCases(o: Outbound, data: seq<byte>)
    requires SlotInv(o) && (o.asyncWriting || AtRest(o))
    ensures o.write.Write(data).Valid() && o.writing.Write(data).Valid()
    ensures o.write.Write(data).Unread() == o.write.Unread() + data
    ensures o.writing.Write(data).Unread() == o.writing.Unread() + data
    ensures o.Send(data) ==
            if o.asyncWriting then o.(write := o.write.Write(data), accepted := o.accepted + data)
            else o.(writing := o.writing.Write(data), accepted := o.accepted + data,
                    asyncWriting := data != [],
                    writeOp := if data == [] then NoWrite else Writing(o.writing.Write(data).Unread()))
  {
    WriteAppends(o.writing, data);
    WriteAppends(o.write, data);
  }

  lemma AppendLast(a: seq<byte>, u: seq<byte>, v: seq<byte>, data: seq<byte>)
    ensures a + u + (v + data) == (a + u + v) + data
    ensures v == [] ==> a + (u + data) + v == (a + u + v) + data
  {
  }

  lemma SendKeepsStream(o: Outbound, data: seq<byte>)
    requires SlotInv(o) && StreamInv(o) && (o.asyncWriting || AtRest(o))
    ensures SlotInv(o.Send(data)) && StreamInv(o.Send(data))
    ensures o.Send(data).asyncWriting || AtRest(o.Send(data))
  {
    SendCases(o, data);
    AppendLast(o.acked, o.writing.Unread(), o.write.Unread(), data);
    var d := o.Send(data);
    assert InKernel(d) == InKernel(o);
  }

  lemma SendKeepsCursors(o: Outbound, data: seq<byte>)
    requires SlotInv(o) && CursorInv(o) && (o.asyncWriting || AtRest(o))
    ensures o.Send(data).Valid() && CursorInv(o.Send(data))
  {
    SendCases(o, data);
    WriteAppends(o.writing, data);
    WriteAppends(o.write, data);
    WriteKeepsAmortised(o.writing, data);
    WriteKeepsAmortised(o.write, data);
  }

  lemma SendKeepsInv(o: Outbound, data: seq<byte>)
    requires SendInv(o, true)
    ensures SendInv(o.Send(data), true)
  {
    SendKeepsStream(o, data);
    SendKeepsCursors(o, data);
  }

  /** What a completed write does, in terms of the cursors alone. */
  lemma WrittenCases(o: Outbound)
    requires SlotInv(o) && o.writeOp.Wrote?
    ensures var n := o.writeOp.bytes;
      var rest := o.writing.ReadBytes(n);
      var more := if n < o.writing.Size() then rest else o.write;
      rest.Valid() && rest.Unread() == o.writing.Unread()[n..] &&
      o.Written(n) == o.(acked := o.acked + o.writing.Unread()[..n],
                         asyncWriting := more.Size() > 0,
                         writeOp := if more.Size() > 0 then Writing(more.Unread()) else NoWrite,
                         writing := if more.Size() > 0 then more else rest,
                         write := if n == o.writing.Size() && o.write.Size() > 0 then rest else o.write)
  {
    ReadDrops(o.writing, o.writeOp.bytes);
  }

  lemma WrittenKeepsStream(o: Outbound)
    requires SlotInv(o) && StreamInv(o) && o.writeOp.Wrote?
    ensures var d := o.Written(o.writeOp.bytes);
      SlotInv(d) && StreamInv(d) && (d.asyncWriting || AtRest(d))
  {
    WrittenCases(o);
    var n, a, u, v := o.writeOp.bytes, o.acked, o.writing.Unread(), o.write.Unread();
    assert u == u[..n] + u[n..];
    assert (a + u[..n]) + u[n..] + v == a + u + v;
    if n == |u| {
      assert (a + u[..n]) + v + u[n..] == a + u + v;
    }
  }

  lemma WrittenKeepsCursors(o: Outbound)
    requires SlotInv(o) && CursorInv(o) && o.writeOp.Wrote?
    ensures var d := o.Written(o.writeOp.bytes); d.Valid() && CursorInv(d)
  {
    WrittenCases(o);
    assert Amortised(o.writing.ReadBytes(o.writeOp.bytes));
  }

  lemma WrittenKeepsInv(o: Outbound, open: bool)
    requires SendInv(o, open) && o.writeOp.Wrote?
    ensures SendInv(o.Written(o.writeOp.bytes), true)
  {
    WrittenKeepsStream(o);
    WrittenKeepsCursors(o);
  }

  lemma ReleasedKeepsInv(o: Outbound, open: bool)
    requires SendInv(o, open) && o.writeOp.WriteFailed?
    ensures SendInv(o.Released(), false)
  {
  }

  lemma KernelKeepsInv(o: Outbound, open: bool, n: nat)
    requires SendInv(o, open) && o.writeOp.Writing?
    ensures SendInv(o.(writeOp := WriteFailed), open)
    ensures 1 <= n <= |o.writeOp.offered| ==> SendInv(o.KernelWrote(n), open)
  {
  }

  // ------------------------------------------------------------------------------------------------
  // What follows from it
  // ------------------------------------------------------------------------------------------------

  lemma PrefixOfSum(a: seq<byte>, u: seq<byte>, v: seq<byte>, n: nat)
    requires n <= |u|
    ensures a <= a + u[..n] <= a + u + v
  {
  }

  /** What reached the kernel is a prefix of what was accepted, and extends what was acknowledged. */
  lemma WireIsPrefix(o: Outbound, open: bool)
    requires SendInv(o, open)
    ensures o.acked <= o.wire <= o.accepted
  {
    var n := if o.writeOp.Wrote? then o.writeOp.bytes else 0;
    assert InKernel(o) == o.writing.Unread()[..n];
    PrefixOfSum(o.acked, o.writing.Unread(), o.write.Unread(), n);
  }

  /**
   A high-water callback fires for exactly those sends that are made while a write is in flight, on an
   open socket with the callback set, and that leave more than the mark unacknowledged; it reports
   exactly the number of bytes accepted but not acknowledged.
   */
  lemma HighWaterIsExact(c: Conn, data: seq<byte>)
    requires c.recv.Valid() && SendInv(c.out, c.open)
    ensures var d := c.SendInLoop(data);
      var owed := |d.out.accepted| - |d.out.acked|;
      d.events == if c.open && c.out.asyncWriting && c.fns.highWater && owed > c.fns.mark
                  then c.events + [HighWaterCb(owed)] else c.events
  {
    if c.open {
      SendCases(c.out, data);
      SendKeepsCursors(c.out, data);
    }
  }

  /** Whatever happened so far, copying on resize is linear in the bytes accepted. */
  lemma CopyingIsLinear(o: Outbound, open: bool)
    requires SendInv(o, open)
    ensures o.writing.Capacity() <= Max(INITIAL_CAPACITY, 3 * o.writing.wpos)
    ensures o.write.Capacity() <= Max(INITIAL_CAPACITY, 3 * o.write.wpos)
    ensures o.writing.copied <= 2 * o.writing.Capacity() && o.write.copied <= 2 * o.write.Capacity()
    ensures o.writing.copied + o.write.copied <= 4 * INITIAL_CAPACITY + 6 * |o.accepted|
  {
  }
}
