/**
 A closed connection comes to rest: once its socket is closed and nobody calls it any more, what its loop and the
 kernel still have to do is bounded, and there is always a next thing until nothing is left.
 */
module ConnectionRest {
  import opened ByteBuffers
  import opened Connections
  import opened EventLoops
  import opened ConnectionRuns
  import opened ConnectionTrace

  /** What the loop and the kernel do by themselves. */
  ghost predicate Own(s: Step) {
    s.RunTask? || s.EndAttach? || s.EndMessage? || s.EndClose? || s.Written? || s.Read? ||
    s.KernelWrites? || s.KernelFailsWrite? || s.KernelReads? || s.KernelFailsRead?
  }

  ghost predicate AllOwn(steps: seq<Step>) {
    forall s :: s in steps ==> Own(s)
  }

  function PcRank(pc: Pc): nat {
    match pc
    case Idle => 0
    case InAttach => 4
    case InMessage => 4
    case InClose => 1
  }

  function ReadRank(op: ReadOp): nat {
    match op
    case NoRead => 0
    case ReadFailed(_) => 2
    case Reading(_) => 3
    case Got(_) => 5
  }

  function WriteRank(op: WriteOp): nat {
    match op
    case NoWrite => 0
    case WriteFailed => 2
    case Writing(_) => 3
    case Wrote(_) => 4
  }

  /** A bound on what is left to do on a closed connection. */
  ghost function Left(w: World): nat {
    |w.loop.queue| + PcRank(w.pc) + ReadRank(w.conn.readOp) + WriteRank(w.conn.out.writeOp)
  }

  // ---- room ----

  /** A read is never started without room, unless a callback left none. */
  ghost predicate RoomInv(w: World) {
    w.conn.recv.Valid() &&
    (w.life != Attached || w.pc == InAttach ==> w.conn.recv.ValidSize() > 0) &&
    (w.flags.roomKept && w.conn.readOp.Reading? ==> w.conn.readOp.room > 0)
  }

  lemma SendKeepsRoom(w: World, msg: Msg)
    requires Sound(w) && RoomInv(w)
    ensures RoomInv(DoSend(w, msg))
  {
    SendInLoopKeepsInv(w.conn, msg.data);
    hide SendInv, LifeInv, Conn.SendInLoop;
  }

  lemma SendsKeepRoom(w: World, s: Step)
    requires Sound(w) && Enabled(w, s) && RoomInv(w) && (s.Send? || s.RunTask?)
    ensures RoomInv(Next(w, s)) && Next(w, s).flags.roomKept == w.flags.roomKept
  {
    hide SendInv, Conn.SendInLoop, Buf.Unread;
    match s
    case Send(thread, data) =>
      SendKeepsRoom(w.(sends := w.sends.(calls := w.sends.calls + [Msg(thread, data)])), Msg(thread, data));
    case RunTask =>
      var task, v := w.loop.queue[0], w.(loop := w.loop.Pop());
      if task.SendTask? {
        SendKeepsRoom(v, task.msg);
      }
  }

  lemma StepKeepsRoom(w: World, s: Step)
    requires Sound(w) && Enabled(w, s) && RoomInv(w)
    ensures RoomInv(Next(w, s))
    ensures Next(w, s).flags.roomKept ==> w.flags.roomKept
  {
    if s.Send? || s.RunTask? {
      hide Next, Sound, Enabled, RoomInv;
      SendsKeepRoom(w, s);
    } else {
      NextIsSound(w, s);
      if s == Written {
        WrittenParts(w);
        hide SendInv, LifeInv, Next;
      }
      hide StreamInv, CursorInv, SlotInv, Buf.Unread;
    }
  }

  lemma InitHasRoom(tid: ThreadId, fns: Callbacks)
    ensures RoomInv(Init(tid, fns))
  {
  }

  lemma {:induction false} RunsKeepRoom(w: World, steps: seq<Step>)
    requires Sound(w) && Runs(w, steps) && RoomInv(w)
    ensures RoomInv(After(w, steps))
    decreases |steps|
  {
    if steps != [] {
      FirstStep(w, steps);
      hide Sound, Enabled, Next, RoomInv;
      StepKeepsRoom(w, steps[0]);
      RunsKeepRoom(Next(w, steps[0]), steps[1..]);
    }
  }

  // ---- rest ----

  ghost predicate ShutDown(w: World) {
    Sound(w) && TraceInv(w) && RoomInv(w) && w.life == Attached && !w.conn.open && w.flags.roomKept
  }

  /** Whatever the loop or the kernel does next, less is left. */
  lemma OwnStepsUseUp(w: World, s: Step)
    requires ShutDown(w) && Own(s) && Enabled(w, s)
    ensures Left(Next(w, s)) < Left(w)
    ensures Next(w, s).life == Attached && !Next(w, s).conn.open
  {
    hide StreamInv, CursorInv, TraceInv;
    match s
    case Written =>
      WrittenParts(w);
      if w.conn.out.writeOp.Wrote? {
        WrittenCases(w.conn.out);
      }
      QueueStays(w, s);
      hide SlotInv, LifeInv, ReadSlotInv;
    case Read =>
      ReadCases(w);
      QueueStays(w, s);
      hide SlotInv, LifeInv, ReadSlotInv, Next;
    case _ =>
  }

  lemma QueueStays(w: World, s: Step)
    requires Sound(w) && Enabled(w, s) && (s == Read || s == Written)
    ensures Next(w, s).loop == w.loop
  {
    hide SendInv, LifeInv, Conn.BeginWritten, Conn.BeginRead;
  }

  /** Until nothing is left, there is a next thing for them to do. */
  lemma SomethingIsNext(w: World) returns (s: Step)
    requires Sound(w) && w.life == Attached && !Quiescent(w)
    ensures Own(s) && Enabled(w, s)
  {
    hide SendInv, ReadSlotInv, LifeInv;
    if w.pc == InAttach { s := EndAttach; }
    else if w.pc == InMessage { s := EndMessage; }
    else if w.pc == InClose { s := EndClose; }
    else if w.loop.queue != [] { s := RunTask; }
    else if w.conn.readOp.Reading? { s := KernelFailsRead(true); }
    else if w.conn.readOp != NoRead { s := Read; }
    else if w.conn.out.writeOp.Writing? { s := KernelFailsWrite; }
    else { s := Written; }
  }

  lemma StepKeepsShutDown(w: World, s: Step)
    requires ShutDown(w) && Own(s) && Enabled(w, s) && Next(w, s).flags.roomKept
    ensures ShutDown(Next(w, s))
  {
    OwnStepsUseUp(w, s);
    NextIsSound(w, s);
    NextKeepsTrace(w, s);
    StepKeepsRoom(w, s);
    hide Sound, TraceInv, RoomInv, Enabled, Next;
  }

  lemma {:induction false} RoomWasKept(w: World, steps: seq<Step>)
    requires Sound(w) && Runs(w, steps) && RoomInv(w) && After(w, steps).flags.roomKept
    ensures w.flags.roomKept
    decreases |steps|
  {
    if steps != [] {
      FirstStep(w, steps);
      hide Sound, Enabled, Next, RoomInv;
      StepKeepsRoom(w, steps[0]);
      RoomWasKept(Next(w, steps[0]), steps[1..]);
    }
  }

  lemma {:induction false} OwnRunsUseUp(w: World, steps: seq<Step>)
    requires ShutDown(w) && Runs(w, steps) && AllOwn(steps) && After(w, steps).flags.roomKept
    ensures ShutDown(After(w, steps)) && |steps| + Left(After(w, steps)) <= Left(w)
    decreases |steps|
  {
    if steps != [] {
      FirstStep(w, steps);
      assert steps[0] in steps && forall s :: s in steps[1..] ==> s in steps;
      var v := Next(w, steps[0]);
      StepKeepsRoom(w, steps[0]);
      RoomWasKept(v, steps[1..]);
      OwnStepsUseUp(w, steps[0]);
      StepKeepsShutDown(w, steps[0]);
      hide ShutDown, Sound, Enabled, Next, RoomInv, Own, Left;
      OwnRunsUseUp(v, steps[1..]);
    }
  }

  lemma ReachedHasRoom(tid: ThreadId, fns: Callbacks, steps: seq<Step>)
    requires Run(tid, fns, steps)
    ensures RoomInv(Reached(tid, fns, steps))
  {
    InitIsSound(tid, fns);
    InitHasRoom(tid, fns);
    hide Init, Sound, RoomInv, Runs, After;
    RunsKeepRoom(Init(tid, fns), steps);
  }

  lemma ClosedIsAttached(w: World)
    requires Sound(w) && !w.conn.open
    ensures w.life == Attached
  {
  }

  lemma RunSplits(tid: ThreadId, fns: Callbacks, steps: seq<Step>, more: seq<Step>)
    requires Run(tid, fns, steps + more)
    ensures Run(tid, fns, steps)
    ensures var w := Reached(tid, fns, steps);
      Sound(w) && Runs(w, more) && Reached(tid, fns, steps + more) == After(w, more)
  {
    InitIsSound(tid, fns);
    hide Init, Sound, Runs, After;
    RunsSplit(Init(tid, fns), steps, more);
  }

  // ---- the beginning ----

  /** A posted attachment is the first thing the loop does for the connection; done, it has made its one notification. */
  lemma PostedIsAttached(w: World)
    requires Sound(w) && Enabled(w, PostAttach)
    ensures var v := Next(w, PostAttach);
      v.life == Posted && v.loop.queue == [AttachTask] && v.conn == w.conn && Enabled(v, RunTask)
  {
    hide SendInv, ReadSlotInv;
  }

  lemma AttachmentRuns(w: World)
    requires Sound(w) && w.life == Posted && Enabled(w, RunTask)
    ensures var v := Next(w, RunTask);
      v.life == Attached && v.pc == InAttach && v.conn.status == Connected && v.conn.events == [ConnectedCb] &&
      v.loop.queue == w.loop.queue[1..] && v.conn.out == w.conn.out && v.conn.recv == w.conn.recv
  {
    hide SendInv, ReadSlotInv;
    assert [] + [ConnectedCb] == [ConnectedCb];
  }

  /** A published connection is as it was, but others may send on it and close it, and it can only be attached inline. */
  lemma PublishedIsKnown(w: World, thread: ThreadId, data: seq<byte>)
    requires Sound(w) && Enabled(w, Publish)
    ensures var v := Next(w, Publish);
      v.conn == w.conn && v.loop == w.loop && Enabled(v, Close) && Enabled(v, AttachInline) &&
      (thread != v.loop.tid ==> Enabled(v, Send(thread, data))) && !Enabled(v, RunTask) && !Enabled(v, PostAttach)
  {
    hide SendInv, ReadSlotInv;
  }

  /** The setters set what they are given, and nothing else. */
  lemma SettersTake(w: World, s: Step)
    requires Sound(w) && Enabled(w, s) && (s.SetHighWater? || s.SetCallbacks?)
    ensures var v := Next(w, s);
      v == w.(conn := w.conn.(fns := v.conn.fns)) &&
      (s.SetHighWater? ==> v.conn.fns == Callbacks(s.mark, s.has, w.conn.fns.conn, w.conn.fns.close)) &&
      (s.SetCallbacks? ==> v.conn.fns == Callbacks(w.conn.fns.mark, w.conn.fns.highWater, s.conn, s.close))
  {
    hide SendInv, ReadSlotInv, LifeInv;
  }

  // ---- Close() ----

  /** The posted lambda of Close() closes the socket and touches nothing else. */
  lemma CloseTaskCloses(w: World)
    requires Sound(w) && Enabled(w, RunTask) && w.loop.queue[0] == CloseTask
    ensures var v := Next(w, RunTask);
      !v.conn.open && v.conn == w.conn.(open := false) && v.loop.queue == w.loop.queue[1..] &&
      v == w.(conn := v.conn, loop := v.loop)
  {
    hide SendInv, ReadSlotInv, LifeInv;
  }

  /** The socket is closed, or will be when the loop gets to it. */
  ghost predicate Closing(w: World) {
    !w.conn.open || CloseTask in w.loop.queue
  }

  lemma CloseIsPosted(w: World)
    requires Sound(w) && Enabled(w, Close)
    ensures var v := Next(w, Close);
      Closing(v) && v.conn == w.conn.(status := Disconnecting) && v.loop.queue == w.loop.queue + [CloseTask]
  {
    hide SendInv, ReadSlotInv, LifeInv;
    var v := Next(w, Close);
    assert v.loop.queue[|w.loop.queue|] == CloseTask;
  }

  lemma SendsKeepClosing(w: World, s: Step)
    requires Sound(w) && Enabled(w, s) && Closing(w) && (s.Send? || s.RunTask?)
    ensures Closing(Next(w, s))
  {
    hide SendInv, ReadSlotInv, LifeInv, Outbound.Send, Outbound.Pending;
    var queue := w.loop.queue;
    if s.RunTask? {
      assert queue == [queue[0]] + queue[1..];
    }
  }

  lemma StepKeepsClosing(w: World, s: Step)
    requires Sound(w) && Enabled(w, s) && Closing(w)
    ensures Closing(Next(w, s))
  {
    if s.Send? || s.RunTask? {
      SendsKeepClosing(w, s);
    } else if s == Read {
      ReadCases(w);
      QueueStays(w, s);
      hide SendInv, ReadSlotInv, LifeInv, Next;
    } else if s == Written {
      WrittenParts(w);
      QueueStays(w, s);
      hide SendInv, ReadSlotInv, LifeInv, Next;
    } else {
      hide SlotInv, StreamInv, CursorInv, ReadSlotInv, LifeInv;
    }
  }

  lemma {:induction false} RunsKeepClosing(w: World, steps: seq<Step>)
    requires Sound(w) && Runs(w, steps) && (Closing(w) || Close in steps)
    ensures Closing(After(w, steps))
    decreases |steps|
  {
    if steps != [] {
      FirstStep(w, steps);
      hide Sound, Enabled, Next, Closing;
      if Closing(w) {
        StepKeepsClosing(w, steps[0]);
      } else if steps[0] == Close {
        CloseIsPosted(w);
      } else {
        assert steps == [steps[0]] + steps[1..];
      }
      RunsKeepClosing(Next(w, steps[0]), steps[1..]);
    }
  }

  /** A call of Close() is never lost: on every run that has one, the socket is closed or its closing is queued. */
  lemma CloseIsNeverLost(tid: ThreadId, fns: Callbacks, steps: seq<Step>)
    requires Run(tid, fns, steps) && Close in steps
    ensures Closing(Reached(tid, fns, steps))
  {
    InitIsSound(tid, fns);
    hide Init, Sound, Closing, Runs, After;
    RunsKeepClosing(Init(tid, fns), steps);
  }

  function TasksRun(steps: seq<Step>): nat {
    if steps == [] then 0 else TasksRun(steps[1..]) + if steps[0].RunTask? then 1 else 0
  }

  lemma OwnStepsPostNothing(w: World, s: Step)
    requires Sound(w) && Enabled(w, s) && Own(s)
    ensures Next(w, s).loop.queue == if s.RunTask? then w.loop.queue[1..] else w.loop.queue
  {
    if s == Read || s == Written {
      QueueStays(w, s);
    } else {
      hide SlotInv, StreamInv, CursorInv, ReadSlotInv, LifeInv, Conn.SendInLoop;
    }
  }

  lemma {:induction false} OwnRunsPostNothing(w: World, steps: seq<Step>)
    requires Sound(w) && Runs(w, steps) && AllOwn(steps)
    ensures TasksRun(steps) + |After(w, steps).loop.queue| == |w.loop.queue|
    decreases |steps|
  {
    if steps != [] {
      FirstStep(w, steps);
      assert steps[0] in steps && forall s :: s in steps[1..] ==> s in steps;
      OwnStepsPostNothing(w, steps[0]);
      assert steps[0].RunTask? ==> w.loop.queue != [];
      hide Sound, Enabled, Next;
      OwnRunsPostNothing(Next(w, steps[0]), steps[1..]);
    }
  }

  /** Once attached, always attached. */
  lemma {:induction false} StaysAttached(w: World, steps: seq<Step>)
    requires Sound(w) && Runs(w, steps) && w.life == Attached
    ensures After(w, steps).life == Attached
    decreases |steps|
  {
    if steps != [] {
      FirstStep(w, steps);
      StepStaysAttached(w, steps[0]);
      hide Sound, Enabled, Next;
      StaysAttached(Next(w, steps[0]), steps[1..]);
    }
  }

  lemma StepStaysAttached(w: World, s: Step)
    requires Sound(w) && Enabled(w, s) && w.life == Attached
    ensures Next(w, s).life == Attached
  {
    hide SlotInv, StreamInv, CursorInv, ReadSlotInv, Conn.SendInLoop, Conn.BeginRead, Conn.BeginWritten;
  }

  /**
   Close() leads to rest.  After any run in which Close() was called on a connection that is attached, and left
   alone from here on: once the loop has run as many tasks as are queued now, the socket is closed; from then on
   ClosedComesToRest bounds what is left; and it stops only when the connection is closed and quiescent.
   */
  lemma CloseLeadsToRest(tid: ThreadId, fns: Callbacks, steps: seq<Step>, more: seq<Step>)
    requires Run(tid, fns, steps) && Close in steps && Reached(tid, fns, steps).life == Attached
    requires Run(tid, fns, steps + more) && AllOwn(more)
    ensures var w, v := Reached(tid, fns, steps), Reached(tid, fns, steps + more);
      (TasksRun(more) >= |w.loop.queue| ==> !v.conn.open) &&
      ((Quiescent(v) && !v.conn.open) || exists s :: Own(s) && Enabled(v, s))
  {
    RunSplits(tid, fns, steps, more);
    CloseIsNeverLost(tid, fns, steps);
    var w, v := Reached(tid, fns, steps), Reached(tid, fns, steps + more);
    hide Run, Reached, Runs, After, Sound, Enabled, Own;
    RunsKeepClosing(w, more);
    OwnRunsPostNothing(w, more);
    StaysAttached(w, more);
    ReachedIsSound(tid, fns, steps + more);
    if !Quiescent(v) {
      var s := SomethingIsNext(v);
    }
  }

  /**
   After any run that has closed the socket: as long as nobody calls the connection and its callbacks leave
   room, what happens on it is at most as many steps as Left says, and whenever it stops it is because the
   connection is quiescent - the state LifeEndsInOrder speaks of.
   */
  lemma ClosedComesToRest(tid: ThreadId, fns: Callbacks, steps: seq<Step>, more: seq<Step>)
    requires Run(tid, fns, steps) && !Reached(tid, fns, steps).conn.open
    requires Run(tid, fns, steps + more) && AllOwn(more) && Reached(tid, fns, steps + more).flags.roomKept
    ensures |more| <= Left(Reached(tid, fns, steps))
    ensures var v := Reached(tid, fns, steps + more); Quiescent(v) || exists s :: Own(s) && Enabled(v, s)
  {
    RunSplits(tid, fns, steps, more);
    var w := Reached(tid, fns, steps);
    ReachedHasTrace(tid, fns, steps);
    ReachedHasRoom(tid, fns, steps);
    hide Run, Reached, Runs, After;
    ClosedIsAttached(w);
    RoomWasKept(w, more);
    assert ShutDown(w);
    hide Sound, RoomInv, TraceInv, Left, Quiescent, ShutDown, Enabled, Own;
    OwnRunsUseUp(w, more);
    var v := After(w, more);
    if !Quiescent(v) {
      var s := SomethingIsNext(v);
    }
  }
}
