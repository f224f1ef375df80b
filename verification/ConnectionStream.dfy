/**
 The two swapping send buffers, seen from outside, are one append-only byte stream and two marks in it: how
 far the kernel has taken it, and how far that has been acknowledged.
 */
module ConnectionStream {
  import opened ByteBuffers
  import opened Connections
  import opened EventLoops
  import opened ConnectionRuns

  /** The specification: it has one sequence and knows nothing of buffers, flags, sockets or loops. */
  datatype Stream = Stream(accepted: seq<byte>, taken: nat, acked: nat)

  datatype Action =
    | Accept(data: seq<byte>)
    | Take(bytes: nat)
    | Ack
    | Nothing

  predicate Can(s: Stream, a: Action) {
    match a
    case Take(bytes) => s.taken == s.acked && 1 <= bytes && s.taken + bytes <= |s.accepted|
    case Ack => s.acked < s.taken
    case _ => true
  }

  function Do(s: Stream, a: Action): Stream {
    match a
    case Accept(data) => s.(accepted := s.accepted + data)
    case Take(bytes) => s.(taken := s.taken + bytes)
    case Ack => s.(acked := s.taken)
    case Nothing => s
  }

  predicate CanAll(s: Stream, actions: seq<Action>)
    decreases |actions|
  {
    actions != [] ==> Can(s, actions[0]) && CanAll(Do(s, actions[0]), actions[1..])
  }

  function DoAll(s: Stream, actions: seq<Action>): Stream
    decreases |actions|
  {
    if actions == [] then s else DoAll(Do(s, actions[0]), actions[1..])
  }

  ghost function Abstract(w: World): Stream {
    Stream(w.conn.out.accepted, |w.conn.out.wire|, |w.conn.out.acked|)
  }

  /** What a step of the connection is to the stream: a send counts when it runs, and on an open socket only. */
  ghost function ActionOf(w: World, s: Step): Action {
    match s
    case Send(thread, data) => if w.loop.IsInLoopThread(thread) && w.conn.open then Accept(data) else Nothing
    case RunTask =>
      if w.loop.queue != [] && w.loop.queue[0].SendTask? && w.conn.open then Accept(w.loop.queue[0].msg.data) else Nothing
    case KernelWrites(bytes) => Take(bytes)
    case Written => if w.conn.out.writeOp.Wrote? then Ack else Nothing
    case _ => Nothing
  }

  ghost function ActionsOf(w: World, steps: seq<Step>): seq<Action>
    requires Sound(w) && Runs(w, steps)
    decreases |steps|
  {
    if steps == [] then [] else
      NextIsSound(w, steps[0]);
      [ActionOf(w, steps[0])] + ActionsOf(Next(w, steps[0]), steps[1..])
  }

  lemma SendRefinesStream(w: World, msg: Msg)
    requires Sound(w)
    ensures Abstract(DoSend(w, msg)) == if w.conn.open then Do(Abstract(w), Accept(msg.data)) else Abstract(w)
  {
    if w.conn.open {
      SendCases(w.conn.out, msg.data);
    }
  }

  lemma KernelRefinesStream(w: World, bytes: nat)
    requires Sound(w) && Enabled(w, KernelWrites(bytes))
    ensures Can(Abstract(w), Take(bytes)) && Abstract(Next(w, KernelWrites(bytes))) == Do(Abstract(w), Take(bytes))
  {
    hide CursorInv, LifeInv, ReadSlotInv;
    var o := w.conn.out;
    assert o.wire == o.acked;
    assert |o.accepted| == |o.acked| + |o.writing.Unread()| + |o.write.Unread()|;
  }

  lemma AckRefinesStream(w: World)
    requires Sound(w) && Enabled(w, Written) && w.conn.out.writeOp.Wrote?
    ensures Can(Abstract(w), Ack) && Abstract(Next(w, Written)) == Do(Abstract(w), Ack)
  {
    WrittenCases(w.conn.out);
    hide CursorInv, LifeInv, ReadSlotInv, Outbound.Written;
  }

  lemma OthersRefineStream(w: World, s: Step)
    requires Sound(w) && Enabled(w, s)
    requires !s.Send? && !s.RunTask? && !s.KernelWrites? && !s.Written?
    ensures Abstract(Next(w, s)) == Abstract(w)
  {
    hide SendInv, LifeInv, ReadSlotInv;
  }

  lemma StepRefinesStream(w: World, s: Step)
    requires Sound(w) && Enabled(w, s)
    ensures Can(Abstract(w), ActionOf(w, s)) && Abstract(Next(w, s)) == Do(Abstract(w), ActionOf(w, s))
  {
    hide SlotInv, StreamInv, CursorInv, ReadSlotInv, Conn.SendInLoop, Outbound.Written;
    match s
    case Send(thread, data) =>
      if w.loop.IsInLoopThread(thread) {
        SendRefinesStream(w.(sends := w.sends.(calls := w.sends.calls + [Msg(thread, data)])), Msg(thread, data));
      }
    case RunTask =>
      var task, v := w.loop.queue[0], w.(loop := w.loop.Pop());
      if task.SendTask? {
        assert Sound(v);
        SendRefinesStream(v, task.msg);
      }
    case KernelWrites(bytes) => KernelRefinesStream(w, bytes);
    case Written =>
      if w.conn.out.writeOp.Wrote? {
        AckRefinesStream(w);
      }
    case _ => OthersRefineStream(w, s);
  }

  lemma {:induction false} RunsRefineStream(w: World, steps: seq<Step>)
    requires Sound(w) && Runs(w, steps)
    ensures CanAll(Abstract(w), ActionsOf(w, steps))
    ensures Abstract(After(w, steps)) == DoAll(Abstract(w), ActionsOf(w, steps))
    decreases |steps|
  {
    hide Sound, Enabled, Next, Abstract, ActionOf, Can, Do;
    if steps != [] {
      var a := ActionOf(w, steps[0]);
      NextIsSound(w, steps[0]);
      StepRefinesStream(w, steps[0]);
      RunsRefineStream(Next(w, steps[0]), steps[1..]);
      assert ActionsOf(w, steps)[1..] == ActionsOf(Next(w, steps[0]), steps[1..]);
    }
  }

  ghost function ActionsOfRun(tid: ThreadId, fns: Callbacks, steps: seq<Step>): seq<Action>
    requires Run(tid, fns, steps)
  {
    InitIsSound(tid, fns);
    ActionsOf(Init(tid, fns), steps)
  }

  const EMPTY := Stream([], 0, 0)

  lemma InitIsEmpty(tid: ThreadId, fns: Callbacks)
    ensures Abstract(Init(tid, fns)) == EMPTY
  {
    hide Fresh;
  }

  lemma RunRefinesStream(tid: ThreadId, fns: Callbacks, steps: seq<Step>)
    requires Run(tid, fns, steps)
    ensures CanAll(EMPTY, ActionsOfRun(tid, fns, steps))
    ensures Abstract(Reached(tid, fns, steps)) == DoAll(EMPTY, ActionsOfRun(tid, fns, steps))
  {
    hide Init, Sound, Abstract, CanAll, DoAll, Runs, After;
    InitIsSound(tid, fns);
    InitIsEmpty(tid, fns);
    RunsRefineStream(Init(tid, fns), steps);
  }

  lemma MarksAreLengths(accepted: seq<byte>, wire: seq<byte>, acked: seq<byte>)
    requires acked <= wire <= accepted
    ensures wire == accepted[..|wire|] && acked == accepted[..|acked|] && |acked| <= |wire| <= |accepted|
  {
  }

  /**
   Every run of a connection is, action by action, a run of the stream: sends append in the order they run,
   the kernel takes from where it left off, and never again before what it took is acknowledged.  What it has
   taken, and what has been acknowledged, are the stream up to the two marks.
   */
  lemma PipelineRefinesStream(tid: ThreadId, fns: Callbacks, steps: seq<Step>)
    requires Run(tid, fns, steps)
    ensures var actions := ActionsOfRun(tid, fns, steps);
      var s, o := DoAll(EMPTY, actions), Reached(tid, fns, steps).conn.out;
      CanAll(EMPTY, actions) &&
      s.acked <= s.taken <= |s.accepted| &&
      o.accepted == s.accepted && o.wire == s.accepted[..s.taken] && o.acked == s.accepted[..s.acked]
  {
    RunRefinesStream(tid, fns, steps);
    WireRefinesStream(tid, fns, steps);
    var o := Reached(tid, fns, steps).conn.out;
    hide Run, Reached, ActionsOfRun, CanAll, DoAll;
    MarksAreLengths(o.accepted, o.wire, o.acked);
  }
}
