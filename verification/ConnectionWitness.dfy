/**
 Concrete runs showing that the bounds of ConnectionTrace are tight and that its conditions are needed.
 */
module ConnectionWitness {
  import opened ByteBuffers
  import opened Connections
  import opened EventLoops
  import opened ConnectionRuns
  import opened ConnectionTrace

  const ME: ThreadId := 1
  const FNS := Callbacks(DEFAULT_HIGH_WATER_MARK, false, true, true)

  ghost predicate At(steps: seq<Step>, w: World) {
    Run(ME, FNS, steps) && Reached(ME, FNS, steps) == w && Sound(w)
  }

  lemma Take(steps: seq<Step>, w: World, s: Step) returns (more: seq<Step>, v: World)
    requires At(steps, w) && Enabled(w, s)
    ensures v == Next(w, s) && At(more, v)
  {
    InitIsSound(ME, FNS);
    hide Sound, Enabled, Next, Init;
    RunsExtend(Init(ME, FNS), steps, s);
    NextIsSound(w, s);
    more, v := steps + [s], Next(w, s);
  }

  /** What the witnesses need to know of a state. */
  datatype View = View(open: bool, status: Status, pc: Pc, readOp: ReadOp, writeOp: WriteOp, queue: seq<Task>,
                       flags: Flags, phase: Phase)

  ghost function Seen(w: World): View {
    View(w.conn.open, w.conn.status, w.pc, w.conn.readOp, w.conn.out.writeOp, w.loop.queue, w.flags, Track(w.conn.events))
  }

  const FLAGS := Flags(false, false, false, true, true)

  lemma InitLooks()
    ensures var w := Init(ME, FNS);
      w.life == Hidden && w.loop == Loop(ME, true, []) &&
      w.conn.recv.wpos == 0 && w.conn.recv.Capacity() == INITIAL_CAPACITY && w.conn.fns == FNS &&
      w.conn.out.Valid() && AtRest(w.conn.out) && w.conn.out.writeOp == NoWrite && w.conn.readOp == NoRead &&
      w.conn.events == [] && w.conn.open && w.pc == Idle && w.flags == FLAGS
  {
  }

  lemma Begin() returns (w: World)
    ensures At([], w) && w == Init(ME, FNS)
  {
    hide Sound, Init;
    InitIsSound(ME, FNS);
    w := Init(ME, FNS);
  }

  lemma Attach() returns (steps: seq<Step>, w: World)
    ensures At(steps, w) && w.life == Attached && w.loop.tid == ME && w.conn.recv.wpos == 0
    ensures w.conn.recv.Capacity() == INITIAL_CAPACITY && w.conn.fns == FNS
    ensures AtRest(w.conn.out)
    ensures Seen(w) == View(true, Connected, Idle, Reading(INITIAL_CAPACITY), NoWrite, [], FLAGS, Live)
  {
    w := Begin();
    InitLooks();
    hide Run, Sound, Init;
    steps, w := Take([], w, AttachInline);
    TrackSnoc([], ConnectedCb);
    steps, w := Take(steps, w, EndAttach);
  }

  /** One byte is sent and handed to the kernel. */
  lemma SendByte(steps0: seq<Step>, w0: World, v0: View) returns (steps: seq<Step>, w: World)
    requires At(steps0, w0) && w0.life == Attached && w0.loop.tid == ME && v0 == Seen(w0)
    requires v0.open && v0.writeOp == NoWrite
    ensures At(steps, w) && w.life == Attached && w.loop.tid == ME && w.conn.recv == w0.conn.recv
    ensures w.conn.out.writeOp.Writing? && Seen(w) == v0.(writeOp := w.conn.out.writeOp)
  {
    SendCases(w0.conn.out, [7]);
    assert w0.conn.out.Valid() && !w0.conn.out.asyncWriting;
    hide Sound, Run, Outbound.Send;
    steps, w := Take(steps0, w0, Send(ME, [7]));
  }

  lemma FailedWriteLooks(w: World)
    requires Sound(w) && w.pc == Idle && w.conn.out.writeOp.WriteFailed?
    ensures Enabled(w, Written)
    ensures var v := Next(w, Written);
      v.life == w.life && v.loop == w.loop && v.conn.recv == w.conn.recv &&
      Seen(v) == Seen(w).(pc := InClose, open := false, status := Disconnecting, writeOp := NoWrite,
                          phase := Move(Track(w.conn.events), ClosingCb(true, true)),
                          flags := w.flags.(writeFailed := true))
  {
    hide StreamInv, CursorInv, LifeInv, Track, Outbound.Written;
    TrackSnoc(w.conn.events, ClosingCb(w.conn.fns.conn, w.conn.fns.close));
  }

  /** One byte is sent, and the kernel fails the write. */
  lemma FailWrite(steps0: seq<Step>, w0: World, v0: View) returns (steps: seq<Step>, w: World)
    requires At(steps0, w0) && w0.life == Attached && w0.loop.tid == ME && v0 == Seen(w0)
    requires v0.open && v0.pc == Idle && v0.writeOp == NoWrite && v0.phase == Live && v0.readOp != NoRead
    ensures At(steps, w) && w.life == Attached && w.loop.tid == ME && w.conn.recv == w0.conn.recv
    ensures Seen(w) == v0.(open := false, status := Disconnected, phase := Closed,
                           flags := v0.flags.(writeFailed := true, closeCalled := false))
  {
    hide Sound, Run;
    steps, w := SendByte(steps0, w0, v0);
    steps, w := Take(steps, w, KernelFailsWrite);
    FailedWriteLooks(w);
    steps, w := Take(steps, w, Written);
    steps, w := Take(steps, w, EndClose);
  }

  /** The outstanding read fails. */
  lemma FailRead(steps0: seq<Step>, w0: World, v0: View) returns (steps: seq<Step>, w: World)
    requires At(steps0, w0) && w0.life == Attached && w0.loop.tid == ME && v0 == Seen(w0)
    requires v0.pc == Idle && v0.readOp.Reading?
    ensures At(steps, w) && w.life == Attached && w.loop.tid == ME
    ensures Seen(w) == v0.(open := false, status := Disconnected, readOp := NoRead,
                           phase := Move(v0.phase, ClosingCb(true, true)),
                           flags := v0.flags.(readFailed := true, closeCalled := false))
  {
    hide Sound, Run;
    steps, w := Take(steps0, w0, KernelFailsRead(true));
    TrackSnoc(w.conn.events, ClosingCb(w.conn.fns.conn, w.conn.fns.close));
    steps, w := Take(steps, w, Read);
    steps, w := Take(steps, w, EndClose);
  }

  /**
   The close notification runs twice: a failed write and then a failed read each set the status to
   Disconnecting before the guard in HandleClose looks at it.
   */
  lemma TwoClosesHappen() returns (steps: seq<Step>)
    ensures Run(ME, FNS, steps) && Quiescent(Reached(ME, FNS, steps))
    ensures var w := Reached(ME, FNS, steps);
      w.flags.roomKept && Track(w.conn.events) == ClosedTwice && w.conn.status == Disconnected
  {
    var w;
    steps, w := Attach();
    hide SendInv, ReadSlotInv, LifeInv;
    var v := Seen(w);
    steps, w := FailWrite(steps, w, v);
    v := Seen(w);
    steps, w := FailRead(steps, w, v);
  }

  /** Close() called after the last completion was handled leaves a quiescent connection Disconnecting. */
  lemma LateCloseLeavesDisconnecting() returns (steps: seq<Step>)
    ensures Run(ME, FNS, steps) && Quiescent(Reached(ME, FNS, steps))
    ensures Reached(ME, FNS, steps).conn.status == Disconnecting
  {
    var w;
    steps, w := Attach();
    var v := Seen(w);
    hide SendInv, ReadSlotInv, LifeInv;
    steps, w := FailRead(steps, w, v);
    steps, w := Take(steps, w, Close);
    assert w.loop.queue == [CloseTask] && w.conn.status == Disconnecting && w.pc == Idle;
    assert w.conn.readOp == NoRead && w.conn.out.writeOp == NoWrite && w.life == Attached;
    steps, w := Take(steps, w, RunTask);
  }

  /** The kernel fills the room it was given. */
  lemma Fill(steps0: seq<Step>, w0: World, v0: View, got: seq<byte>) returns (steps: seq<Step>, w: World)
    requires At(steps0, w0) && w0.life == Attached && w0.loop.tid == ME && v0 == Seen(w0)
    requires v0.readOp == Reading(|got|) && (v0.open || got == [])
    ensures At(steps, w) && w.life == Attached && w.loop.tid == ME && w.conn.out == w0.conn.out
    ensures w.conn.recv.Valid() && w.conn.recv.ValidSize() == |got|
    ensures Seen(w) == v0.(readOp := Got(|got|))
  {
    assert w0.conn.recv.Valid() && w0.conn.recv.ValidSize() == |got|;
    hide Sound, Run;
    steps, w := Take(steps0, w0, KernelReads(got));
  }

  lemma ReadLooks(w: World)
    requires Sound(w) && w.pc == Idle && w.conn.readOp.Got?
    ensures Enabled(w, Read)
    ensures var v := Next(w, Read);
      v.life == w.life && v.loop == w.loop && v.conn.out == w.conn.out && v.conn.recv == w.conn.recv.WriteBytes(w.conn.readOp.bytes) &&
      Seen(v) == Seen(w).(pc := InMessage, readOp := NoRead, phase := Move(Track(w.conn.events), MessageCb))
  {
    hide SendInv, LifeInv, Track;
    TrackSnoc(w.conn.events, MessageCb);
  }

  lemma EndMessageLooks(w: World)
    requires Sound(w) && w.pc == InMessage
    ensures Enabled(w, EndMessage)
    ensures var v, room := Next(w, EndMessage), w.conn.recv.ValidSize();
      v.life == w.life && v.loop == w.loop && v.conn.out == w.conn.out &&
      v.flags == w.flags.(roomKept := w.flags.roomKept && room > 0, drained := v.flags.drained) &&
      Seen(v) == Seen(w).(pc := Idle, readOp := Reading(room), flags := v.flags)
  {
    hide SendInv, LifeInv, Track;
  }

  /** A consumer that reads nothing, given as much as there is room for. */
  lemma Overfill(steps0: seq<Step>, w0: World, v0: View, got: seq<byte>) returns (steps: seq<Step>, w: World)
    requires At(steps0, w0) && w0.life == Attached && w0.loop.tid == ME && v0 == Seen(w0)
    requires v0.pc == Idle && v0.readOp == Reading(|got|) && (v0.open || got == [])
    ensures At(steps, w) && w.life == Attached && w.loop.tid == ME && w.conn.out == w0.conn.out
    ensures Seen(w) == v0.(readOp := Reading(0), phase := Move(v0.phase, MessageCb),
                           flags := v0.flags.(roomKept := false, drained := w.flags.drained))
  {
    hide Sound, Run, Next, Enabled, Track, Move;
    steps, w := Fill(steps0, w0, v0, got);
    assert w.pc == Idle && w.conn.readOp == Got(|got|);
    ReadLooks(w);
    steps, w := Take(steps, w, Read);
    assert w.pc == InMessage && w.flags == v0.flags;
    hide Seen;
    EndMessageLooks(w);
    steps, w := Take(steps, w, EndMessage);
  }

  /** Without free space in the callback the language is left: messages keep coming after the notification. */
  lemma WithoutRoomTheTraceBreaks() returns (steps: seq<Step>)
    ensures Run(ME, FNS, steps)
    ensures !Reached(ME, FNS, steps).flags.roomKept && Track(Reached(ME, FNS, steps).conn.events) == Broken
  {
    var w;
    steps, w := Attach();
    var v := Seen(w);
    var bytes := seq(INITIAL_CAPACITY, _ => 7 as byte);
    hide SlotInv, StreamInv, CursorInv, ReadSlotInv, LifeInv;
    steps, w := Overfill(steps, w, v, bytes);
    v := Seen(w);
    steps, w := FailWrite(steps, w, v);
    v := Seen(w);
    steps, w := Overfill(steps, w, v, []);
    v := Seen(w);
    steps, w := Overfill(steps, w, v, []);
  }
}
