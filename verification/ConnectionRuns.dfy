/**
 Whole runs of one connection: its loop, the threads that send on it, the kernel behind its socket, and
 user code running inside its callbacks, interleaved in every possible way.

 A step is one thing that happens without being interrupted.  Handlers stop at each callback: while `pc`
 is InAttach, InMessage or InClose the loop is inside user code, which may send, close, or (InMessage)
 work on the receive buffer, before the handler's last part runs.
 */
module ConnectionRuns {
  import opened ByteBuffers
  import opened Connections
  import opened EventLoops

  datatype Task = AttachTask | SendTask(msg: Msg) | CloseTask

  datatype Msg = Msg(from: ThreadId, data: seq<byte>)

  datatype Pc = Idle | InAttach | InMessage | InClose

  /**
   A server posts the attachment before anybody else knows the connection, or attaches it inline.  A client
   first publishes it, from inside the handler that goes on to attach it.
   */
  datatype Life = Hidden | Published | Posted | Attached

  datatype Flags = Flags(
    readFailed: bool,    // HandleRead has been given an error
    writeFailed: bool,   // HandleWrite has been given an error
    closeCalled: bool,   // Close() was called since OnAttachedToLoop or HandleClose last set the status
    roomKept: bool,      // every message callback so far left free space
    drained: bool)       // every message callback so far left the buffer empty and normalised

  datatype Sends = Sends(
    calls: seq<Msg>,     // every call of Send, in order
    admitted: seq<Msg>,  // the messages SendInLoop let in
    dropped: seq<Msg>)   // the messages SendInLoop turned away

  datatype Receipts = Receipts(
    arrived: seq<byte>,       // every byte the kernel delivered
    consumed: seq<byte>,      // every byte the consumer read
    chunks: seq<seq<byte>>)   // Data()[..Size()] at each message callback

  datatype World = World(
    conn: Conn,
    loop: Loop<Task>,
    pc: Pc,
    life: Life,
    flags: Flags,
    sends: Sends,
    receipts: Receipts)

  datatype Step =
    | PostAttach
    | Publish
    | AttachInline
    | Send(thread: ThreadId, data: seq<byte>)
    | Close
    | RunTask
    | EndAttach
    | EndMessage
    | EndClose
    | Written
    | Read
    | KernelWrites(bytes: nat)
    | KernelFailsWrite
    | KernelReads(got: seq<byte>)
    | KernelFailsRead(eof: bool)
    | ConsumeBytes(count: nat)
    | ConsumeNormalize
    | ConsumeEnsure
    | ConsumeEstimate(size: nat)
    | SetHighWater(has: bool, mark: nat)
    | SetCallbacks(conn: bool, close: bool)

  ghost function Init(tid: ThreadId, fns: Callbacks): World {
    World(NewConn(fns), Loop(tid, true, []), Idle, Hidden,
          Flags(false, false, false, true, true), Sends([], [], []), Receipts([], [], []))
  }

  /** What the handlers rely on when they run. */
  ghost predicate Sound(w: World) {
    SendInv(w.conn.out, w.conn.open) && ReadSlotInv(w.conn.recv, w.conn.readOp, w.pc) && LifeInv(w)
  }

  ghost predicate ReadSlotInv(recv: Buf, op: ReadOp, pc: Pc) {
    recv.Valid() &&
    (op.Reading? ==> op.room == recv.ValidSize()) &&
    (op.Got? ==> op.bytes <= recv.ValidSize()) &&
    (pc.InMessage? || pc.InAttach? ==> op == NoRead)
  }

  /** The attachment is the first thing the loop ever does for a connection, and it happens once. */
  ghost predicate LifeInv(w: World) {
    match w.life
    case Hidden => w.loop.queue == [] && Untouched(w)
    case Published => AttachTask !in w.loop.queue && Untouched(w)
    case Posted => w.loop.queue != [] && w.loop.queue[0] == AttachTask && AttachTask !in w.loop.queue[1..] && Untouched(w)
    case Attached => AttachTask !in w.loop.queue
  }

  ghost predicate Untouched(w: World) {
    w.pc == Idle && w.conn.readOp == NoRead && w.conn.out.writeOp == NoWrite && w.conn.events == [] && w.conn.open
  }

  ghost predicate Enabled(w: World, s: Step) {
    var out, readOp := w.conn.out, w.conn.readOp;
    match s
    case PostAttach => w.life == Hidden
    case Publish => w.life == Hidden
    case AttachInline => w.life == Hidden || w.life == Published
    case Send(thread, data) => if w.loop.IsInLoopThread(thread) then w.life == Attached else w.life != Hidden
    case Close => w.life != Hidden
    // while a published connection is not attached, its loop is inside the handler that is about to attach it
    case RunTask => w.pc == Idle && w.life != Published && w.loop.queue != []
    case EndAttach => w.pc == InAttach
    case EndMessage => w.pc == InMessage
    case EndClose => w.pc == InClose
    case Written => w.pc == Idle && (out.writeOp.Wrote? || out.writeOp.WriteFailed?)
    case Read => w.pc == Idle && (readOp.Got? || readOp.ReadFailed?)
    // an open socket may take part of what it was offered; a closed one can only fail it
    case KernelWrites(bytes) => out.writeOp.Writing? && w.conn.open && 1 <= bytes <= |out.writeOp.offered|
    case KernelFailsWrite => out.writeOp.Writing?
    // a read into no memory at all succeeds with nothing, even on a closed socket
    case KernelReads(got) => readOp.Reading? && |got| <= readOp.room && (w.conn.open || readOp.room == 0)
    case KernelFailsRead(_) => readOp.Reading?
    case ConsumeBytes(count) => w.pc == InMessage && w.conn.recv.rpos + count <= w.conn.recv.wpos
    case ConsumeNormalize => w.pc == InMessage
    case ConsumeEnsure => w.pc == InMessage
    case ConsumeEstimate(_) => w.pc == InMessage
    case SetHighWater(_, _) => true
    case SetCallbacks(_, _) => w.life != Hidden
  }

  ghost function OnAttachedToLoop(w: World): World {
    w.(conn := w.conn.BeginAttach(), pc := InAttach, life := Attached, flags := w.flags.(closeCalled := false))
  }

  ghost function DoSend(w: World, msg: Msg): World
    requires w.conn.Valid()
  {
    w.(conn := w.conn.SendInLoop(msg.data),
       sends := if w.conn.open then w.sends.(admitted := w.sends.admitted + [msg])
                else w.sends.(dropped := w.sends.dropped + [msg]))
  }

  ghost function DoTask(w: World, task: Task): World
    requires w.conn.Valid()
  {
    match task
    case AttachTask => OnAttachedToLoop(w)
    case SendTask(msg) => DoSend(w, msg)
    case CloseTask => w.(conn := w.conn.(open := false))
  }

  ghost function DoSendCall(w: World, msg: Msg): World
    requires w.conn.Valid()
  {
    var (now, loop) := w.loop.RunInLoop(msg.from, SendTask(msg));
    var v := w.(sends := w.sends.(calls := w.sends.calls + [msg]), loop := loop);
    if now != [] then DoSend(v, msg) else v
  }

  ghost function DoWritten(w: World): World
    requires Sound(w) && Enabled(w, Written)
  {
    var v := w.(conn := w.conn.BeginWritten());
    if w.conn.out.writeOp.WriteFailed? then v.(pc := InClose, flags := w.flags.(writeFailed := true)) else v
  }

  ghost function DoRead(w: World): World
    requires Sound(w) && Enabled(w, Read)
  {
    var c := w.conn.BeginRead();
    if w.conn.readOp.ReadFailed? then w.(conn := c, pc := InClose, flags := w.flags.(readFailed := true))
    else w.(conn := c, pc := InMessage,
            receipts := w.receipts.(chunks := w.receipts.chunks + [c.recv.storage[..c.recv.Size()]]))
  }

  ghost function DoEndMessage(w: World): World
    requires w.conn.Valid()
  {
    var recv, f := w.conn.recv, w.flags;
    w.(conn := w.conn.AsyncRead(), pc := Idle,
       flags := f.(roomKept := f.roomKept && recv.ValidSize() > 0,
                   drained := f.drained && recv.rpos == 0 && recv.wpos == 0))
  }

  ghost function WithRecv(w: World, recv: Buf): World {
    w.(conn := w.conn.(recv := recv))
  }

  ghost function Next(w: World, s: Step): World
    requires Sound(w) && Enabled(w, s)
  {
    match s
    case PostAttach => w.(loop := w.loop.QueueInLoop(AttachTask), life := Posted)
    case Publish => w.(life := Published)
    case AttachInline => OnAttachedToLoop(w)
    case Send(thread, data) => DoSendCall(w, Msg(thread, data))
    case Close =>
      w.(conn := w.conn.(status := Disconnecting), loop := w.loop.QueueInLoop(CloseTask),
         flags := w.flags.(closeCalled := true))
    case RunTask => DoTask(w.(loop := w.loop.Pop()), w.loop.queue[0])
    case EndAttach => w.(conn := w.conn.AsyncRead(), pc := Idle)
    case EndMessage => DoEndMessage(w)
    case EndClose => w.(conn := w.conn.EndClose(), pc := Idle, flags := w.flags.(closeCalled := false))
    case Written => DoWritten(w)
    case Read => DoRead(w)
    case KernelWrites(bytes) => w.(conn := w.conn.(out := w.conn.out.KernelWrote(bytes)))
    case KernelFailsWrite => w.(conn := w.conn.(out := w.conn.out.(writeOp := WriteFailed)))
    case KernelReads(got) =>
      w.(conn := w.conn.KernelGot(got), receipts := w.receipts.(arrived := w.receipts.arrived + got))
    case KernelFailsRead(eof) => w.(conn := w.conn.(readOp := ReadFailed(eof)))
    case ConsumeBytes(count) =>
      WithRecv(w, w.conn.recv.ReadBytes(count))
      .(receipts := w.receipts.(consumed := w.receipts.consumed + w.conn.recv.Unread()[..count]))
    case ConsumeNormalize => WithRecv(w, w.conn.recv.Normalize())
    case ConsumeEnsure => WithRecv(w, w.conn.recv.EnsureValidSize())
    case ConsumeEstimate(size) => WithRecv(w, w.conn.recv.EstimateSize(size))
    case SetHighWater(has, mark) => w.(conn := w.conn.(fns := w.conn.fns.(highWater := has, mark := mark)))
    case SetCallbacks(conn, close) => w.(conn := w.conn.(fns := w.conn.fns.(conn := conn, close := close)))
  }

  // ------------------------------------------------------------------------------------------------
  // Every step keeps the handlers' assumptions
  // ------------------------------------------------------------------------------------------------

  lemma SendInLoopKeepsInv(c: Conn, data: seq<byte>)
    requires c.recv.Valid() && SendInv(c.out, c.open)
    ensures SendInv(c.SendInLoop(data).out, c.open)
    ensures var d := c.SendInLoop(data); d == c.(out := d.out, events := d.events)
  {
    if c.open {
      SendKeepsInv(c.out, data);
    }
  }

  lemma DoSendKeepsSound(w: World, msg: Msg)
    requires Sound(w) && w.life == Attached
    ensures Sound(DoSend(w, msg))
  {
    hide SendInv, Conn.SendInLoop;
    SendInLoopKeepsInv(w.conn, msg.data);
  }

  lemma RunTaskKeepsSound(w: World)
    requires Sound(w) && Enabled(w, RunTask)
    ensures Sound(Next(w, RunTask))
  {
    var task, v := w.loop.queue[0], w.(loop := w.loop.Pop());
    if task.SendTask? {
      DoSendKeepsSound(v, task.msg);
    } else {
      hide SlotInv, StreamInv, CursorInv;
    }
  }

  lemma SendKeepsSound(w: World, thread: ThreadId, data: seq<byte>)
    requires Sound(w) && Enabled(w, Send(thread, data))
    ensures Sound(Next(w, Send(thread, data)))
  {
    hide SendInv;
    if w.loop.IsInLoopThread(thread) {
      DoSendKeepsSound(w.(sends := w.sends.(calls := w.sends.calls + [Msg(thread, data)])), Msg(thread, data));
    }
  }

  lemma WrittenKeepsSound(w: World)
    requires Sound(w) && Enabled(w, Written)
    ensures Sound(Next(w, Written))
  {
    if w.conn.out.writeOp.Wrote? {
      WrittenKeepsInv(w.conn.out, w.conn.open);
    } else {
      ReleasedKeepsInv(w.conn.out, w.conn.open);
    }
    hide SlotInv, StreamInv, CursorInv, Outbound.Written;
  }

  lemma KernelKeepsSound(w: World, s: Step)
    requires Sound(w) && Enabled(w, s)
    requires s.KernelWrites? || s.KernelFailsWrite? || s.KernelReads? || s.KernelFailsRead?
    ensures Sound(Next(w, s))
  {
    match s
    case KernelWrites(bytes) => KernelKeepsInv(w.conn.out, w.conn.open, bytes);
    case KernelFailsWrite => KernelKeepsInv(w.conn.out, w.conn.open, 0);
    case KernelReads(got) => FillCommits(w.conn.recv, got);
    case KernelFailsRead(_) =>
  }

  lemma ConsumerKeepsSound(w: World, s: Step)
    requires Sound(w) && Enabled(w, s)
    requires s.ConsumeBytes? || s.ConsumeNormalize? || s.ConsumeEnsure? || s.ConsumeEstimate?
    ensures Sound(Next(w, s))
  {
    var recv := w.conn.recv;
    hide SendInv, LifeInv, Buf.Unread, Buf.Normalize, Buf.EnsureValidSize, Buf.EstimateSize;
    match s
    case ConsumeBytes(count) => ReadDrops(recv, count); OtherRecvIsSound(w, recv.ReadBytes(count), Next(w, s));
    case ConsumeNormalize => NormalizeKeepsUnread(recv); OtherRecvIsSound(w, recv.Normalize(), Next(w, s));
    case ConsumeEnsure => EnsureGivesRoomIff(recv); OtherRecvIsSound(w, recv.EnsureValidSize(), Next(w, s));
    case ConsumeEstimate(size) => EstimateMakesRoom(recv, size); OtherRecvIsSound(w, recv.EstimateSize(size), Next(w, s));
  }

  /** Inside a message callback nothing depends on how the receive buffer looks. */
  lemma OtherRecvIsSound(w: World, recv: Buf, v: World)
    requires Sound(w) && w.pc == InMessage && recv.Valid() && v == WithRecv(w, recv).(receipts := v.receipts)
    ensures Sound(v)
  {
    hide SendInv;
  }

  lemma HandlersKeepSound(w: World, s: Step)
    requires Sound(w) && Enabled(w, s)
    requires s.PostAttach? || s.Publish? || s.AttachInline? || s.Close? || s.EndAttach? || s.EndMessage? || s.EndClose? || s.Read?
             || s.SetHighWater? || s.SetCallbacks?
    ensures Sound(Next(w, s))
  {
    hide SlotInv, StreamInv, CursorInv;
  }

  lemma NextIsSound(w: World, s: Step)
    requires Sound(w) && Enabled(w, s)
    ensures Sound(Next(w, s))
  {
    hide SendInv, ReadSlotInv, LifeInv, Enabled;
    match s
    case Send(thread, data) => SendKeepsSound(w, thread, data);
    case RunTask => RunTaskKeepsSound(w);
    case Written => WrittenKeepsSound(w);
    case KernelWrites(_) => KernelKeepsSound(w, s);
    case KernelFailsWrite => KernelKeepsSound(w, s);
    case KernelReads(_) => KernelKeepsSound(w, s);
    case KernelFailsRead(_) => KernelKeepsSound(w, s);
    case ConsumeBytes(_) => ConsumerKeepsSound(w, s);
    case ConsumeNormalize => ConsumerKeepsSound(w, s);
    case ConsumeEnsure => ConsumerKeepsSound(w, s);
    case ConsumeEstimate(_) => ConsumerKeepsSound(w, s);
    case _ => HandlersKeepSound(w, s);
  }

  // ------------------------------------------------------------------------------------------------
  // Runs
  // ------------------------------------------------------------------------------------------------

  ghost predicate Runs(w: World, steps: seq<Step>)
    requires Sound(w)
    decreases |steps|
  {
    steps != [] ==> Enabled(w, steps[0]) && (NextIsSound(w, steps[0]); Runs(Next(w, steps[0]), steps[1..]))
  }

  ghost function After(w: World, steps: seq<Step>): World
    requires Sound(w) && Runs(w, steps)
    decreases |steps|
  {
    if steps == [] then w else
      NextIsSound(w, steps[0]);
      After(Next(w, steps[0]), steps[1..])
  }

  lemma InitIsSound(tid: ThreadId, fns: Callbacks)
    ensures Sound(Init(tid, fns))
  {
    hide SendInv;
    NewOutboundSendInv();
  }

  ghost predicate Run(tid: ThreadId, fns: Callbacks, steps: seq<Step>) {
    InitIsSound(tid, fns);
    Runs(Init(tid, fns), steps)
  }

  ghost function Reached(tid: ThreadId, fns: Callbacks, steps: seq<Step>): World
    requires Run(tid, fns, steps)
  {
    InitIsSound(tid, fns);
    After(Init(tid, fns), steps)
  }

  lemma {:induction false} RunsKeepSound(w: World, steps: seq<Step>)
    requires Sound(w) && Runs(w, steps)
    ensures Sound(After(w, steps))
    decreases |steps|
  {
    hide Sound, Enabled, Next;
    if steps != [] {
      NextIsSound(w, steps[0]);
      RunsKeepSound(Next(w, steps[0]), steps[1..]);
    }
  }

  lemma ReachedIsSound(tid: ThreadId, fns: Callbacks, steps: seq<Step>)
    requires Run(tid, fns, steps)
    ensures Sound(Reached(tid, fns, steps))
  {
    InitIsSound(tid, fns);
    hide Sound, Init;
    RunsKeepSound(Init(tid, fns), steps);
  }

  lemma RunsCons(w: World, s: Step, rest: seq<Step>)
    requires Sound(w) && Enabled(w, s)
    requires Sound(Next(w, s)) && Runs(Next(w, s), rest)
    ensures Runs(w, [s] + rest) && After(w, [s] + rest) == After(Next(w, s), rest)
  {
    hide Sound, Enabled, Next;
    assert ([s] + rest)[1..] == rest;
  }

  lemma {:induction false} RunsExtend(w: World, steps: seq<Step>, s: Step)
    requires Sound(w) && Runs(w, steps) && Enabled(After(w, steps), s)
    ensures Sound(After(w, steps)) && Runs(w, steps + [s]) && After(w, steps + [s]) == Next(After(w, steps), s)
    decreases |steps|
  {
    hide Sound, Enabled, Next;
    if steps == [] {
      assert ([s])[1..] == [];
      NextIsSound(w, s);
      assert Runs(Next(w, s), []);
    } else {
      NextIsSound(w, steps[0]);
      RunsExtend(Next(w, steps[0]), steps[1..], s);
      assert (steps + [s])[1..] == steps[1..] + [s];
    }
  }

  lemma FirstStep(w: World, steps: seq<Step>)
    requires Sound(w) && steps != [] && Runs(w, steps)
    ensures Enabled(w, steps[0]) && Sound(Next(w, steps[0]))
    ensures Runs(Next(w, steps[0]), steps[1..]) && After(w, steps) == After(Next(w, steps[0]), steps[1..])
  {
    hide Sound, Enabled, Next;
    NextIsSound(w, steps[0]);
  }

  lemma {:induction false} RunsSplit(w: World, first: seq<Step>, rest: seq<Step>)
    requires Sound(w) && Runs(w, first + rest)
    ensures Runs(w, first) && Sound(After(w, first)) && Runs(After(w, first), rest)
    ensures After(w, first + rest) == After(After(w, first), rest)
    decreases |first|
  {
    hide Sound, Enabled, Next;
    if first == [] {
      assert first + rest == rest;
    } else {
      FirstStep(w, first + rest);
      assert (first + rest)[0] == first[0] && (first + rest)[1..] == first[1..] + rest;
      RunsSplit(Next(w, first[0]), first[1..], rest);
    }
  }

  lemma {:induction false} RunsAppend(w: World, first: seq<Step>, rest: seq<Step>)
    requires Sound(w) && Runs(w, first) && Sound(After(w, first)) && Runs(After(w, first), rest)
    ensures Runs(w, first + rest) && After(w, first + rest) == After(After(w, first), rest)
    decreases |first|
  {
    hide Sound, Enabled, Next;
    if first == [] {
      assert first + rest == rest;
    } else {
      FirstStep(w, first);
      hide Runs, After;
      RunsAppend(Next(w, first[0]), first[1..], rest);
      RunsCons(w, first[0], first[1..] + rest);
      assert [first[0]] + (first[1..] + rest) == first + rest;
    }
  }

  lemma RunsOne(w: World, s: Step)
    requires Sound(w) && Enabled(w, s)
    ensures Sound(Next(w, s)) && Runs(w, [s]) && After(w, [s]) == Next(w, s)
  {
    hide Sound, Enabled, Next;
    NextIsSound(w, s);
    assert [s][1..] == [];
  }

  // ------------------------------------------------------------------------------------------------
  // The byte stream
  // ------------------------------------------------------------------------------------------------

  /**
   In every reachable state, whatever was interleaved: the bytes acknowledged, the unread bytes of
   writing_buffer_ and those of write_buffer_ are the accepted bytes, in order; and what the kernel has
   taken is a prefix of what was accepted.
   */
  lemma WireRefinesStream(tid: ThreadId, fns: Callbacks, steps: seq<Step>)
    requires Run(tid, fns, steps)
    ensures var o := Reached(tid, fns, steps).conn.out;
      o.Valid() &&
      o.acked + o.writing.Unread() + o.write.Unread() == o.accepted &&
      o.acked <= o.wire <= o.accepted
  {
    ReachedIsSound(tid, fns, steps);
    var w := Reached(tid, fns, steps);
    WireIsPrefix(w.conn.out, w.conn.open);
  }

  /** While the socket is open, bytes wait only behind a write in flight. */
  lemma OpenWithoutWriteIsEmpty(tid: ThreadId, fns: Callbacks, steps: seq<Step>)
    requires Run(tid, fns, steps)
    ensures var c := Reached(tid, fns, steps).conn;
      c.out.Valid() &&
      (c.out.asyncWriting <==> c.out.writeOp != NoWrite) &&
      (c.open && !c.out.asyncWriting ==> c.out.acked == c.out.accepted == c.out.wire)
  {
    ReachedIsSound(tid, fns, steps);
    var o := Reached(tid, fns, steps).conn.out;
    var none: seq<byte> := [];
    if AtRest(o) {
      assert o.writing.Unread() == none && o.write.Unread() == none;
      assert o.acked + none + none == o.acked;
    }
  }

  /** The cursors of the two send buffers count the bytes accepted and acknowledged, and copying is linear. */
  lemma CursorsCountBytes(tid: ThreadId, fns: Callbacks, steps: seq<Step>)
    requires Run(tid, fns, steps)
    ensures var o := Reached(tid, fns, steps).conn.out;
      o.Valid() &&
      o.writing.wpos + o.write.wpos == |o.accepted| &&
      o.writing.rpos + o.write.rpos == |o.acked| &&
      o.writing.Capacity() <= Max(INITIAL_CAPACITY, 3 * o.writing.wpos) &&
      o.write.Capacity() <= Max(INITIAL_CAPACITY, 3 * o.write.wpos) &&
      o.writing.copied <= 2 * o.writing.Capacity() && o.write.copied <= 2 * o.write.Capacity() &&
      o.writing.copied + o.write.copied <= 4 * INITIAL_CAPACITY + 6 * |o.accepted|
  {
    ReachedIsSound(tid, fns, steps);
    var w := Reached(tid, fns, steps);
    CopyingIsLinear(w.conn.out, w.conn.open);
  }

  /** Every high-water report, on every run, is exactly what is owed, and none that is due is missed. */
  lemma HighWaterReports(tid: ThreadId, fns: Callbacks, steps: seq<Step>, data: seq<byte>)
    requires Run(tid, fns, steps)
    ensures var c := Reached(tid, fns, steps).conn;
      c.Valid() &&
      var d := c.SendInLoop(data);
      var owed := |d.out.accepted| - |d.out.acked|;
      d.events == if c.open && c.out.asyncWriting && c.fns.highWater && owed > c.fns.mark
                  then c.events + [HighWaterCb(owed)] else c.events
  {
    ReachedIsSound(tid, fns, steps);
    HighWaterIsExact(Reached(tid, fns, steps).conn, data);
  }

  /**
   Buffer stability.  While a write is in flight, no step but its completion handler touches
   writing_buffer_; while a read is in flight, no step but its handler moves a cursor of recv_buffer_ or
   changes a byte that was already written.
   */
  lemma LentMemoryIsStable(tid: ThreadId, fns: Callbacks, steps: seq<Step>, s: Step)
    requires Run(tid, fns, steps) && Enabled(Reached(tid, fns, steps), s)
    ensures var w := Reached(tid, fns, steps);
      Sound(w) &&
      var v := Next(w, s);
      (w.conn.out.asyncWriting && s != Written ==>
         v.conn.out.writing == w.conn.out.writing && v.conn.out.asyncWriting) &&
      (w.conn.readOp != NoRead && s != Read ==>
         v.conn.readOp != NoRead &&
         v.conn.recv.rpos == w.conn.recv.rpos && v.conn.recv.wpos == w.conn.recv.wpos &&
         |v.conn.recv.storage| == |w.conn.recv.storage| &&
         v.conn.recv.storage[..w.conn.recv.wpos] == w.conn.recv.storage[..w.conn.recv.wpos])
  {
    ReachedIsSound(tid, fns, steps);
    StepIsStable(Reached(tid, fns, steps), s);
  }

  lemma SendIsStable(w: World, msg: Msg)
    requires Sound(w)
    ensures var v := DoSend(w, msg);
      v.conn.recv == w.conn.recv && v.conn.readOp == w.conn.readOp &&
      (w.conn.out.asyncWriting ==> v.conn.out.writing == w.conn.out.writing && v.conn.out.asyncWriting)
  {
    if w.conn.open {
      SendCases(w.conn.out, msg.data);
    }
  }

  lemma StepIsStable(w: World, s: Step)
    requires Sound(w) && Enabled(w, s)
    ensures var v := Next(w, s);
      (w.conn.out.asyncWriting && s != Written ==>
         v.conn.out.writing == w.conn.out.writing && v.conn.out.asyncWriting) &&
      (w.conn.readOp != NoRead && s != Read ==>
         v.conn.readOp != NoRead &&
         v.conn.recv.rpos == w.conn.recv.rpos && v.conn.recv.wpos == w.conn.recv.wpos &&
         |v.conn.recv.storage| == |w.conn.recv.storage| &&
         v.conn.recv.storage[..w.conn.recv.wpos] == w.conn.recv.storage[..w.conn.recv.wpos])
  {
    match s
    case Send(thread, data) =>
      hide Conn.SendInLoop, SlotInv, StreamInv, CursorInv;
      if w.loop.IsInLoopThread(thread) {
        var m := Msg(thread, data);
        var u := w.(sends := w.sends.(calls := w.sends.calls + [m]));
        SendIsStable(u, m);
      }
    case RunTask =>
      hide Conn.SendInLoop, SlotInv, StreamInv, CursorInv;
      var task, u := w.loop.queue[0], w.(loop := w.loop.Pop());
      if task.SendTask? {
        assert Sound(u);
        SendIsStable(u, task.msg);
      }
    case Written =>
      hide SlotInv, StreamInv, CursorInv, Outbound.Written;
    case _ =>
      hide SlotInv, StreamInv, CursorInv;
  }
}
