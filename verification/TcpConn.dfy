/**
 The connection object (src/tcp_conn.cc) over its three real buffers.  Each method is tied to the function
 of Connections it implements.  User callbacks do nothing but be recorded here; what they may do while a
 handler waits for them is the business of ConnectionRuns.
 */
module TcpConns {
  import opened ByteBuffers
  import opened Connections
  import opened EventLoops
  import opened ConnectionReceive
  import Runs = ConnectionRuns

  /** The message callback of the library's own server and client (src/tcp_server_impl.h). */
  method OnRecvData(buffer: ByteBuffer) returns (ss: seq<byte>)
    requires buffer.Valid()
    modifies buffer`rpos, buffer`wpos, buffer.storage
    ensures buffer.Valid() && buffer.State() == old(buffer.State()).(rpos := 0, wpos := 0)
    ensures ss == old(buffer.State().storage[..buffer.State().Size()])
    ensures old(buffer.rpos) == 0 ==> ss == old(buffer.State().Unread())
  {
    ghost var before := buffer.State();
    DrainEmpties(before);
    ss := buffer.storage[..buffer.wpos - buffer.rpos];
    buffer.ReadBytes(buffer.wpos - buffer.rpos);
    buffer.Normalize();
  }

  class TCPConn {
    var status: Status
    var open: bool                  // socket_.is_open()
    const recv: ByteBuffer
    var asyncWriting: bool
    const write: ByteBuffer
    const writing: ByteBuffer
    var highWaterMark: nat
    var hasHighWaterFn: bool
    var hasConnFn: bool
    var hasCloseFn: bool
    ghost var readOp: ReadOp
    ghost var writeOp: WriteOp
    ghost var accepted: seq<byte>
    ghost var wire: seq<byte>
    ghost var acked: seq<byte>
    ghost var events: seq<Event>

    ghost function Repr(): set<object>
      reads this, recv, write, writing
    {
      {this, recv, write, writing, recv.storage, write.storage, writing.storage}
    }

    ghost predicate Valid()
      reads this, recv, write, writing
    {
      recv != write && recv != writing && write != writing &&
      recv.storage != write.storage && recv.storage != writing.storage && write.storage != writing.storage &&
      recv.Valid() && write.Valid() && writing.Valid()
    }

    ghost function Out(): (o: Outbound)
      reads this, write, writing, write.storage, writing.storage
      ensures o.Valid() <==> write.Valid() && writing.Valid()
    {
      Outbound(asyncWriting, write.State(), writing.State(), writeOp, accepted, wire, acked)
    }

    ghost function Fns(): Callbacks
      reads this
    {
      Callbacks(highWaterMark, hasHighWaterFn, hasConnFn, hasCloseFn)
    }

    ghost function State(): (c: Conn)
      reads Repr()
      ensures Valid() ==> c.Valid()
    {
      Conn(status, open, Fns(), recv.State(), readOp, Out(), events)
    }

    /** The arrays handed to the kernel are still those of the buffers. */
    ghost predicate Lent(writeInFlight: bool, writeMemory: array<byte>, readMemory: array<byte>)
      reads this, recv, writing
    {
      (writeInFlight ==> writing.storage == writeMemory) && recv.storage == readMemory
    }

    constructor ()
      ensures Valid() && fresh(Repr())
      ensures State() == NewConn(Callbacks(DEFAULT_HIGH_WATER_MARK, false, false, false))
    {
      recv := new ByteBuffer(INITIAL_CAPACITY);
      write := new ByteBuffer(INITIAL_CAPACITY);
      writing := new ByteBuffer(INITIAL_CAPACITY);
      status, open, asyncWriting := Disconnected, true, false;
      highWaterMark := DEFAULT_HIGH_WATER_MARK;
      hasHighWaterFn, hasConnFn, hasCloseFn := false, false, false;
      readOp, writeOp := NoRead, NoWrite;
      accepted, wire, acked, events := [], [], [], [];
    }

    method SetHighWaterMarkCallback(has: bool, mark: nat)
      requires Valid()
      modifies this`hasHighWaterFn, this`highWaterMark
      ensures Valid() && State() == old(State()).(fns := old(Fns()).(highWater := has, mark := mark))
    {
      hasHighWaterFn := has;
      highWaterMark := mark;
    }

    method SetConnCallback(has: bool)
      requires Valid()
      modifies this`hasConnFn
      ensures Valid() && State() == old(State()).(fns := old(Fns()).(conn := has))
    {
      hasConnFn := has;
    }

    method SetCloseCallback(has: bool)
      requires Valid()
      modifies this`hasCloseFn
      ensures Valid() && State() == old(State()).(fns := old(Fns()).(close := has))
    {
      hasCloseFn := has;
    }

    method Close(loop: EventLoop<Runs.Task>)
      requires Valid()
      modifies this`status, loop`queue
      ensures Valid() && State() == old(State()).(status := Disconnecting)
      ensures loop.State() == old(loop.State()).QueueInLoop(Runs.CloseTask)
    {
      status := Disconnecting;
      loop.QueueInLoop(Runs.CloseTask);
    }

    /** Any thread may call this; only the loop's own thread touches the connection. */
    method Send(loop: EventLoop<Runs.Task>, thread: ThreadId, data: seq<byte>)
      requires Valid() && loop !in {recv as object, write as object, writing as object}
      modifies Repr(), loop`queue
      ensures Valid() && fresh(Repr() - old(Repr()))
      ensures var (now, posted) := old(loop.State()).RunInLoop(thread, Runs.SendTask(Runs.Msg(thread, data)));
        loop.State() == posted &&
        State() == if now == [] then old(State()) else old(State()).SendInLoop(data)
      ensures Lent(old(asyncWriting), old(writing.storage), old(recv.storage))
    {
      if loop.IsInLoopThread(thread) {
        SendInLoop(data);
      } else {
        var now := loop.RunInLoop(thread, Runs.SendTask(Runs.Msg(thread, data)));
      }
    }

    method SendInLoop(data: seq<byte>)
      requires Valid()
      modifies Repr()
      ensures Valid() && fresh(Repr() - old(Repr()))
      ensures State() == old(State()).SendInLoop(data)
      ensures Lent(old(asyncWriting), old(writing.storage), old(recv.storage))
    {
      ghost var out := Out();
      SendAppends(out, data);
      hide Buf.Write;
      if !open {
        return;
      }
      if !asyncWriting {
        if write.wpos - write.rpos > 0 {
          writing.Swap(write);
        }
        ghost var swapped := Out();
        assert swapped == if out.write.Size() > 0 then out.Swap() else out;
        writing.Write(data);
        accepted := accepted + data;
        assert Out() == swapped.(writing := swapped.writing.Write(data), accepted := out.accepted + data);
        AsyncWrite();
      } else {
        write.Write(data);
        accepted := accepted + data;
        assert Out() == out.Send(data);
        ReportHighWater();
      }
    }

    /** Lines 151-158, behind a write in flight. */
    method ReportHighWater()
      requires Valid()
      modifies this`events
      ensures Valid() && Out() == old(Out())
      ensures State() == if Out().Pending() > highWaterMark && hasHighWaterFn then old(State()).Emit(HighWaterCb(Out().Pending())) else old(State())
    {
      var size := write.wpos - write.rpos + (writing.wpos - writing.rpos);
      if size > highWaterMark {
        if hasHighWaterFn {
          events := events + [HighWaterCb(size)];
        }
      }
    }

    method AsyncRead()
      requires Valid()
      modifies this`readOp
      ensures Valid() && State() == old(State()).AsyncRead()
    {
      readOp := Reading(recv.State().ValidSize());
    }

    method AsyncWrite()
      requires Valid()
      modifies this`asyncWriting, this`writeOp
      ensures Valid() && State() == old(State()).(out := old(State()).out.AsyncWrite())
    {
      if asyncWriting || writing.wpos - writing.rpos <= 0 {
        return;
      }
      asyncWriting := true;
      writeOp := Writing(writing.State().Unread());
    }

    method HandleClose()
      requires Valid()
      modifies this`status, this`open, this`events
      ensures Valid()
      ensures State() == if old(status) == Disconnected then old(State()) else old(State()).BeginClose().EndClose()
    {
      if status == Disconnected {
        return;
      }
      if open {
        open := false;
      }
      status := Disconnecting;
      events := events + [ClosingCb(hasConnFn, hasCloseFn)];
      status := Disconnected;
    }

    method HandleError()
      requires Valid()
      modifies this`status, this`open, this`events
      ensures Valid() && State() == old(State()).BeginError().EndClose()
    {
      status := Disconnecting;
      HandleClose();
    }

    method OnAttachedToLoop()
      requires Valid()
      modifies this`status, this`events, this`readOp
      ensures Valid() && State() == old(State()).BeginAttach().AsyncRead()
    {
      status := Connected;
      events := events + [ConnectedCb];
      AsyncRead();
    }

    /** The completion of a read, with the library's own consumer as message callback. */
    method HandleRead(failed: bool, eof: bool, bytes: nat) returns (chunk: seq<byte>)
      requires Valid()
      requires readOp == if failed then ReadFailed(eof) else Got(bytes)
      requires !failed ==> bytes <= recv.State().ValidSize()
      modifies Repr()
      ensures Valid() && fresh(Repr() - old(Repr()))
      ensures var c := old(State()).BeginRead();
        if failed then State() == c.EndClose()
        else State() == c.(recv := c.recv.(rpos := 0, wpos := 0)).AsyncRead() &&
             chunk == c.recv.storage[..c.recv.Size()]
      ensures Lent(true, old(writing.storage), old(recv.storage)) && write.storage == old(write.storage)
    {
      hide Buf.Unread, Buf.Normalize;
      ghost var c := State();
      chunk := [];
      readOp := NoRead;
      assert State() == c.(readOp := NoRead);
      if failed {
        if eof {
          status := Disconnecting;
          HandleClose();
          return;
        }
        HandleError();
        return;
      }
      chunk := Deliver(bytes);
      AsyncRead();
    }

    /** Lines 187-189: count what has landed, and hand the buffer to the consumer. */
    method Deliver(bytes: nat) returns (chunk: seq<byte>)
      requires Valid() && bytes <= recv.State().ValidSize()
      modifies this`events, recv`rpos, recv`wpos, recv.storage
      ensures Valid() && Out() == old(Out()) && recv.storage == old(recv.storage)
      ensures var b := old(recv.State()).WriteBytes(bytes);
        State() == old(State()).(recv := b.(rpos := 0, wpos := 0)).Emit(MessageCb) && chunk == b.storage[..b.wpos - b.rpos]
    {
      recv.WriteBytes(bytes);
      events := events + [MessageCb];
      chunk := OnRecvData(recv);
    }

    method HandleWrite(failed: bool, bytes: nat)
      requires Valid()
      requires writeOp == if failed then WriteFailed else Wrote(bytes)
      requires !failed ==> bytes <= writing.State().Size()
      modifies Repr()
      ensures Valid() && fresh(Repr() - old(Repr()))
      ensures State() == if failed then old(State()).BeginWritten().EndClose() else old(State()).BeginWritten()
      ensures Lent(false, old(writing.storage), old(recv.storage))
      ensures asyncWriting && !failed && bytes < old(writing.State().Size()) ==> writing.storage == old(writing.storage)
    {
      ghost var c := State();
      asyncWriting := false;
      writeOp := NoWrite;
      if failed {
        assert State() == c.(out := c.out.Released());
        HandleError();
        return;
      }
      ghost var o := c.out;
      acked := acked + writing.State().Unread()[..bytes];
      writing.ReadBytes(bytes);
      ghost var read := o.Released().(writing := o.writing.ReadBytes(bytes), acked := o.acked + o.writing.Unread()[..bytes]);
      assert Out() == read && State() == c.(out := read);
      hide Buf.ReadBytes, Buf.Unread;
      if writing.wpos - writing.rpos > 0 {
        AsyncWrite();
        return;
      }
      if write.wpos - write.rpos > 0 {
        writing.Swap(write);
        assert Out() == read.Swap();
        AsyncWrite();
        return;
      }
    }
  }
}
