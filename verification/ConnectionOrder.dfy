/**
 Many threads sending on one connection: what SendInLoop lets in is an interleaving of whole messages
 that keeps every thread's own order, and closing only ever cuts off the end of a thread's messages.
 */
module ConnectionOrder {
  import opened ByteBuffers
  import opened Connections
  import opened EventLoops
  import opened ConnectionRuns

  /** The messages of one thread, in order. */
  ghost function Of(ms: seq<Msg>, t: ThreadId): seq<seq<byte>> {
    if ms == [] then []
    else Of(ms[..|ms| - 1], t) + if ms[|ms| - 1].from == t then [ms[|ms| - 1].data] else []
  }

  ghost function Concatenated(ms: seq<Msg>): seq<byte> {
    if ms == [] then [] else Concatenated(ms[..|ms| - 1]) + ms[|ms| - 1].data
  }

  ghost function Queued(queue: seq<Task>): seq<Msg> {
    if queue == [] then []
    else (if queue[0].SendTask? then [queue[0].msg] else []) + Queued(queue[1..])
  }

  lemma OfSnoc(ms: seq<Msg>, m: Msg, t: ThreadId)
    ensures Of(ms + [m], t) == Of(ms, t) + if m.from == t then [m.data] else []
  {
    assert (ms + [m])[..|ms|] == ms;
  }

  lemma OfOne(m: Msg, t: ThreadId)
    ensures Of([m], t) == if m.from == t then [m.data] else []
  {
    assert [m][..0] == [];
  }

  lemma {:induction false} OfConcat(a: seq<Msg>, b: seq<Msg>, t: ThreadId)
    ensures Of(a + b, t) == Of(a, t) + Of(b, t)
  {
    if b == [] {
      assert a + b == a;
    } else {
      var b', m := b[..|b| - 1], b[|b| - 1];
      assert a + b == (a + b') + [m];
      OfSnoc(a + b', m, t);
      OfConcat(a, b', t);
    }
  }

  lemma ConcatenatedSnoc(ms: seq<Msg>, m: Msg)
    ensures Concatenated(ms + [m]) == Concatenated(ms) + m.data
  {
    assert (ms + [m])[..|ms|] == ms;
  }

  lemma {:induction false} QueuedSnoc(queue: seq<Task>, task: Task)
    ensures Queued(queue + [task]) == Queued(queue) + if task.SendTask? then [task.msg] else []
  {
    if queue == [] {
      assert queue + [task] == [task] && [task][1..] == [];
    } else {
      assert (queue + [task])[0] == queue[0];
      assert (queue + [task])[1..] == queue[1..] + [task];
      QueuedSnoc(queue[1..], task);
    }
  }

  /** The loop's own thread never waits in its queue: it sends inline. */
  ghost predicate NoneFrom(queue: seq<Task>, t: ThreadId) {
    forall task :: task in queue && task.SendTask? ==> task.msg.from != t
  }

  lemma {:induction false} NoneQueued(queue: seq<Task>, t: ThreadId)
    requires NoneFrom(queue, t)
    ensures Of(Queued(queue), t) == []
  {
    if queue != [] {
      var head := if queue[0].SendTask? then [queue[0].msg] else [];
      OfConcat(head, Queued(queue[1..]), t);
      NoneQueued(queue[1..], t);
      if queue[0].SendTask? {
        assert queue[0] in queue;
        OfSnoc([], queue[0].msg, t);
        assert [] + [queue[0].msg] == [queue[0].msg];
      }
    }
  }

  /** What one thread sent: first what was admitted, then what was dropped, then what still waits. */
  ghost predicate OrderAt(s: Sends, queue: seq<Task>, t: ThreadId) {
    Of(s.calls, t) == Of(s.admitted, t) + Of(s.dropped, t) + Of(Queued(queue), t)
  }

  ghost predicate OrderInv(w: World) {
    (forall t :: OrderAt(w.sends, w.loop.queue, t)) &&
    (w.conn.open ==> w.sends.dropped == []) &&
    w.conn.out.accepted == Concatenated(w.sends.admitted) &&
    NoneFrom(w.loop.queue, w.loop.tid)
  }

  lemma PostKeepsOrder(s: Sends, queue: seq<Task>, task: Task, t: ThreadId)
    requires OrderAt(s, queue, t)
    ensures task.SendTask? ==> OrderAt(s.(calls := s.calls + [task.msg]), queue + [task], t)
    ensures !task.SendTask? ==> OrderAt(s, queue + [task], t)
  {
    hide Queued, Of;
    QueuedSnoc(queue, task);
    if task.SendTask? {
      OfSnoc(s.calls, task.msg, t);
      OfSnoc(Queued(queue), task.msg, t);
      var sent := Of(s.admitted, t) + Of(s.dropped, t);
      assert (sent + Of(Queued(queue), t)) + (if task.msg.from == t then [task.msg.data] else [])
          == sent + (Of(Queued(queue), t) + if task.msg.from == t then [task.msg.data] else []);
    } else {
      assert Queued(queue) + [] == Queued(queue);
    }
  }

  /** Moving x in front of the queue, or to the end of an otherwise empty queue, behind what was dropped or admitted. */
  lemma AppendBefore(admitted: seq<seq<byte>>, dropped: seq<seq<byte>>, queued: seq<seq<byte>>, x: seq<seq<byte>>)
    ensures admitted + dropped + (x + queued) == admitted + (dropped + x) + queued
    ensures dropped == [] ==> admitted + dropped + (x + queued) == (admitted + x) + dropped + queued
    ensures queued == [] || x == [] ==> admitted + dropped + (x + queued) == (admitted + dropped + queued) + x
  {
  }

  lemma InlineKeepsOrder(s: Sends, queue: seq<Task>, m: Msg, open: bool, t: ThreadId)
    requires OrderAt(s, queue, t) && NoneFrom(queue, m.from) && (open ==> s.dropped == [])
    ensures var u := s.(calls := s.calls + [m]);
      OrderAt(if open then u.(admitted := s.admitted + [m]) else u.(dropped := s.dropped + [m]), queue, t)
  {
    OfSnoc(s.calls, m, t);
    OfSnoc(s.admitted, m, t);
    OfSnoc(s.dropped, m, t);
    NoneQueued(queue, m.from);
    AppendBefore(Of(s.admitted, t), Of(s.dropped, t), Of(Queued(queue), t), if m.from == t then [m.data] else []);
    hide Of, Queued, NoneFrom;
  }

  lemma PopKeepsOrder(s: Sends, queue: seq<Task>, open: bool, t: ThreadId)
    requires OrderAt(s, queue, t) && queue != [] && (open ==> s.dropped == [])
    ensures queue[0].SendTask? ==>
      OrderAt(if open then s.(admitted := s.admitted + [queue[0].msg])
              else s.(dropped := s.dropped + [queue[0].msg]), queue[1..], t)
    ensures !queue[0].SendTask? ==> OrderAt(s, queue[1..], t)
  {
    if queue[0].SendTask? {
      var m, rest := queue[0].msg, Queued(queue[1..]);
      assert Queued(queue) == [m] + rest;
      hide Queued;
      OfConcat([m], rest, t);
      OfOne(m, t);
      OfSnoc(s.admitted, m, t);
      OfSnoc(s.dropped, m, t);
      hide Of;
      AppendBefore(Of(s.admitted, t), Of(s.dropped, t), Of(rest, t), if m.from == t then [m.data] else []);
    } else {
      assert Queued(queue) == Queued(queue[1..]);
    }
  }

  lemma DoSendAccepts(w: World, msg: Msg)
    requires w.conn.recv.Valid() && SendInv(w.conn.out, w.conn.open)
    requires w.conn.out.accepted == Concatenated(w.sends.admitted)
    ensures var v := DoSend(w, msg);
      v.conn.out.accepted == Concatenated(v.sends.admitted) && v.conn.open == w.conn.open
  {
    ConcatenatedSnoc(w.sends.admitted, msg);
    if w.conn.open {
      SendCases(w.conn.out, msg.data);
    }
  }

  lemma SendKeepsOrder(w: World, thread: ThreadId, data: seq<byte>)
    requires Sound(w) && Enabled(w, Send(thread, data)) && OrderInv(w)
    ensures OrderInv(Next(w, Send(thread, data)))
  {
    hide SendInv, LifeInv, Conn.SendInLoop, OrderAt;
    var s, queue, m := w.sends, w.loop.queue, Msg(thread, data);
    var v := Next(w, Send(thread, data));
    if w.loop.IsInLoopThread(thread) {
      var u := w.(sends := s.(calls := s.calls + [m]));
      DoSendAccepts(u, m);
      forall t ensures OrderAt(v.sends, queue, t) {
        InlineKeepsOrder(s, queue, m, w.conn.open, t);
      }
    } else {
      forall t ensures OrderAt(v.sends, v.loop.queue, t) {
        PostKeepsOrder(s, queue, SendTask(m), t);
      }
    }
  }

  lemma RunTaskKeepsOrder(w: World)
    requires Sound(w) && Enabled(w, RunTask) && OrderInv(w)
    ensures OrderInv(Next(w, RunTask))
  {
    hide SendInv, LifeInv, Conn.SendInLoop, OrderAt;
    var s, queue, task := w.sends, w.loop.queue, w.loop.queue[0];
    var v := Next(w, RunTask);
    forall t ensures OrderAt(v.sends, v.loop.queue, t) {
      PopKeepsOrder(s, queue, w.conn.open, t);
    }
    if task.SendTask? {
      DoSendAccepts(w.(loop := w.loop.Pop()), task.msg);
    }
  }

  lemma NextKeepsOrder(w: World, s: Step)
    requires Sound(w) && Enabled(w, s) && OrderInv(w)
    ensures OrderInv(Next(w, s))
  {
    match s
    case Send(thread, data) => SendKeepsOrder(w, thread, data);
    case RunTask => RunTaskKeepsOrder(w);
    case PostAttach =>
      hide SendInv, ReadSlotInv, LifeInv, OrderAt;
      forall t ensures OrderAt(w.sends, w.loop.queue + [AttachTask], t) {
        PostKeepsOrder(w.sends, w.loop.queue, AttachTask, t);
      }
    case Close =>
      hide SendInv, ReadSlotInv, LifeInv, OrderAt;
      forall t ensures OrderAt(w.sends, w.loop.queue + [CloseTask], t) {
        PostKeepsOrder(w.sends, w.loop.queue, CloseTask, t);
      }
    case _ =>
      hide SendInv, ReadSlotInv, LifeInv, OrderAt, NoneFrom;
  }

  lemma {:induction false} RunsKeepOrder(w: World, steps: seq<Step>)
    requires Sound(w) && Runs(w, steps) && OrderInv(w)
    ensures OrderInv(After(w, steps))
    decreases |steps|
  {
    if steps != [] {
      hide Sound, Enabled, OrderInv, Next;
      NextIsSound(w, steps[0]);
      NextKeepsOrder(w, steps[0]);
      RunsKeepOrder(Next(w, steps[0]), steps[1..]);
    }
  }

  lemma InitHasOrder(tid: ThreadId, fns: Callbacks)
    ensures OrderInv(Init(tid, fns))
  {
  }

  /**
   In every reachable state: the accepted bytes are whole messages, each thread's admitted messages are a
   prefix of those it sent, in its own order, and while the socket is open whatever else it sent is
   still waiting, in order.
   */
  lemma ProducersKeepTheirOrder(tid: ThreadId, fns: Callbacks, steps: seq<Step>, t: ThreadId)
    requires Run(tid, fns, steps)
    ensures var w := Reached(tid, fns, steps);
      w.conn.out.accepted == Concatenated(w.sends.admitted) &&
      Of(w.sends.admitted, t) <= Of(w.sends.calls, t) &&
      (w.conn.open ==> Of(w.sends.calls, t) == Of(w.sends.admitted, t) + Of(Queued(w.loop.queue), t)) &&
      (t == w.loop.tid ==> Of(Queued(w.loop.queue), t) == [])
  {
    InitIsSound(tid, fns);
    InitHasOrder(tid, fns);
    hide Init, SendInv, ReadSlotInv, LifeInv, Next;
    RunsKeepOrder(Init(tid, fns), steps);
    var w := Reached(tid, fns, steps);
    assert OrderAt(w.sends, w.loop.queue, t);
    NoneQueued(w.loop.queue, w.loop.tid);
    if w.conn.open {
      assert Of(w.sends.admitted, t) + [] == Of(w.sends.admitted, t);
    }
  }
}
