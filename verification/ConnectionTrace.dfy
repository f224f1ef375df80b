/**
 The life of a connection as its owner sees it: which callbacks run, how often, in what order, and what
 is left when everything has come to rest.
 */
module ConnectionTrace {
  import opened ByteBuffers
  import opened Connections
  import opened EventLoops
  import opened ConnectionRuns

  datatype Letter = C | M | X   // connected, message, closing

  /** The trace without its high-water reports. */
  function Letters(events: seq<Event>): seq<Letter> {
    if events == [] then []
    else
      var rest := Letters(events[..|events| - 1]);
      match events[|events| - 1]
      case ConnectedCb => rest + [C]
      case MessageCb => rest + [M]
      case ClosingCb(_, _) => rest + [X]
      case HighWaterCb(_) => rest
  }

  function Messages(n: nat): seq<Letter> {
    seq(n, _ => M)
  }

  /** Connected Message*, and then one notification, or two with at most one message between them. */
  ghost predicate EndsOnce(letters: seq<Letter>) {
    exists n: nat :: letters == [C] + Messages(n) + [X]
  }

  ghost predicate EndsTwice(letters: seq<Letter>) {
    exists n: nat :: letters == [C] + Messages(n) + [X, X] || letters == [C] + Messages(n) + [X, M, X]
  }

  /** How far a trace has come; None when it has left the language. */
  datatype Phase = Start | Live | Closed | Late | ClosedTwice | Broken

  function Move(p: Phase, e: Event): Phase {
    match e
    case HighWaterCb(_) => p
    case ConnectedCb => if p == Start then Live else Broken
    case MessageCb => if p == Live then Live else if p == Closed then Late else Broken
    case ClosingCb(_, _) => if p == Live then Closed else if p == Closed || p == Late then ClosedTwice else Broken
  }

  function Track(events: seq<Event>): Phase {
    if events == [] then Start else Move(Track(events[..|events| - 1]), events[|events| - 1])
  }

  lemma TrackSnoc(events: seq<Event>, e: Event)
    ensures Track(events + [e]) == Move(Track(events), e)
  {
    assert (events + [e])[..|events|] == events;
  }

  /** The words the phases stand for. */
  ghost predicate Word(p: Phase, letters: seq<Letter>) {
    match p
    case Start => letters == []
    case Live => exists n: nat :: letters == [C] + Messages(n)
    case Closed => exists n: nat :: letters == [C] + Messages(n) + [X]
    case Late => exists n: nat :: letters == [C] + Messages(n) + [X, M]
    case ClosedTwice => exists n: nat :: letters == [C] + Messages(n) + [X, X] || letters == [C] + Messages(n) + [X, M, X]
    case Broken => true
  }

  lemma MoveWord(p: Phase, letters: seq<Letter>, e: Event, next: seq<Letter>)
    requires Word(p, letters)
    requires next == match e
      case ConnectedCb => letters + [C]
      case MessageCb => letters + [M]
      case ClosingCb(_, _) => letters + [X]
      case HighWaterCb(_) => letters
    ensures Word(Move(p, e), next)
  {
    match p
    case Start =>
      if e.ConnectedCb? {
        assert next == [C] + Messages(0);
      }
    case Live =>
      var n: nat :| letters == [C] + Messages(n);
      if e.MessageCb? {
        assert next == [C] + Messages(n + 1);
      } else if e.ClosingCb? {
        assert next == [C] + Messages(n) + [X];
      }
    case Closed =>
      var n: nat :| letters == [C] + Messages(n) + [X];
      if e.MessageCb? {
        assert next == [C] + Messages(n) + [X, M];
      } else if e.ClosingCb? {
        assert next == [C] + Messages(n) + [X, X];
      }
    case Late =>
      var n: nat :| letters == [C] + Messages(n) + [X, M];
      if e.ClosingCb? {
        assert next == [C] + Messages(n) + [X, M, X];
      }
    case _ =>
  }

  lemma {:induction false} TrackWord(events: seq<Event>)
    ensures Word(Track(events), Letters(events))
  {
    if events != [] {
      var init := events[..|events| - 1];
      TrackWord(init);
      MoveWord(Track(init), Letters(init), events[|events| - 1], Letters(events));
    }
  }

  /** The same tracking on letters alone. */
  function MoveLetter(p: Phase, l: Letter): Phase {
    Move(p, match l case C => ConnectedCb case M => MessageCb case X => ClosingCb(true, true))
  }

  function TrackLetters(letters: seq<Letter>): Phase {
    if letters == [] then Start else MoveLetter(TrackLetters(letters[..|letters| - 1]), letters[|letters| - 1])
  }

  lemma TrackLettersSnoc(letters: seq<Letter>, l: Letter)
    ensures TrackLetters(letters + [l]) == MoveLetter(TrackLetters(letters), l)
  {
    assert (letters + [l])[..|letters|] == letters;
  }

  lemma {:induction false} TrackIsOfLetters(events: seq<Event>)
    ensures Track(events) == TrackLetters(Letters(events))
  {
    if events != [] {
      var init, rest := events[..|events| - 1], Letters(events[..|events| - 1]);
      TrackIsOfLetters(init);
      match events[|events| - 1]
      case ConnectedCb => TrackLettersSnoc(rest, C);
      case MessageCb => TrackLettersSnoc(rest, M);
      case ClosingCb(_, _) => TrackLettersSnoc(rest, X);
      case HighWaterCb(_) =>
    }
  }

  lemma {:induction false} LiveTracks(n: nat)
    ensures TrackLetters([C] + Messages(n)) == Live
  {
    if n == 0 {
      assert [C] + Messages(0) == [] + [C];
      TrackLettersSnoc([], C);
    } else {
      LiveTracks(n - 1);
      assert [C] + Messages(n) == ([C] + Messages(n - 1)) + [M];
      TrackLettersSnoc([C] + Messages(n - 1), M);
    }
  }

  lemma EndingsTrack(n: nat)
    ensures var live := [C] + Messages(n);
      TrackLetters(live + [X]) == Closed && TrackLetters(live + [X, X]) == ClosedTwice &&
      TrackLetters(live + [X, M, X]) == ClosedTwice
  {
    var live := [C] + Messages(n);
    LiveTracks(n);
    TrackLettersSnoc(live, X);
    TrackLettersSnoc(live + [X], X);
    TrackLettersSnoc(live + [X], M);
    TrackLettersSnoc(live + [X] + [M], X);
    assert live + [X] + [X] == live + [X, X] && live + [X] + [M] + [X] == live + [X, M, X];
  }

  /** Tracking recognises the language, and tells its endings apart. */
  lemma TrackRecognises(events: seq<Event>)
    ensures Track(events) == Closed <==> EndsOnce(Letters(events))
    ensures Track(events) == ClosedTwice <==> EndsTwice(Letters(events))
  {
    var letters := Letters(events);
    TrackWord(events);
    TrackIsOfLetters(events);
    hide Track, TrackLetters, Letters;
    if EndsOnce(letters) {
      var n: nat :| letters == [C] + Messages(n) + [X];
      EndingsTrack(n);
    }
    if EndsTwice(letters) {
      var n: nat :| letters == [C] + Messages(n) + [X, X] || letters == [C] + Messages(n) + [X, M, X];
      EndingsTrack(n);
    }
  }

  // ------------------------------------------------------------------------------------------------
  // The invariant
  // ------------------------------------------------------------------------------------------------

  /** The one read: outstanding from the attachment until the first failure, except inside a callback. */
  ghost predicate ReadInv(w: World) {
    var f := w.flags;
    (w.life == Attached ==> (w.conn.readOp != NoRead <==> !f.readFailed && w.pc != InAttach && w.pc != InMessage)) &&
    (w.pc == InAttach || w.pc == InMessage ==> !f.readFailed) &&
    (f.readFailed || f.writeFailed ==> w.life == Attached)
  }

  /** What a failed completion leaves behind. */
  ghost predicate CloseInv(w: World) {
    var f := w.flags;
    (f.readFailed || f.writeFailed ==> !w.conn.open) &&
    (f.writeFailed ==> w.conn.out.writeOp == NoWrite) &&
    (w.pc == InClose ==> f.readFailed || f.writeFailed) &&
    w.conn.status == StatusOf(w)
  }

  /** What the status is, from the history alone. */
  ghost function StatusOf(w: World): Status {
    if w.pc == InClose || w.flags.closeCalled then Disconnecting
    else if w.life != Attached || w.flags.readFailed || w.flags.writeFailed then Disconnected
    else Connected
  }

  /** After the first notification a read that can still succeed is one that already has. */
  ghost predicate OnlyFails(op: ReadOp) {
    op.ReadFailed? || (op.Reading? && op.room > 0)
  }

  ghost predicate PhaseInv(p: Phase, w: World) {
    var f := w.flags;
    if w.life != Attached then p == Start
    else if f.readFailed && f.writeFailed then p == ClosedTwice
    else if f.readFailed then p == Closed
    else if f.writeFailed then
      (p == Closed && w.pc != InMessage) || (p == Late && (w.pc == InMessage || OnlyFails(w.conn.readOp)))
    else p == Live
  }

  ghost predicate TraceInv(w: World) {
    ReadInv(w) && CloseInv(w) && (w.flags.roomKept ==> PhaseInv(Track(w.conn.events), w))
  }

  lemma DoSendKeepsTrace(w: World, msg: Msg)
    requires Sound(w) && TraceInv(w) && w.life == Attached
    ensures TraceInv(DoSend(w, msg))
  {
    SendInLoopKeepsInv(w.conn, msg.data);
    hide StreamInv, CursorInv, LifeInv, Outbound.Send;
    var d := w.conn.SendInLoop(msg.data);
    assert d == w.conn.(out := d.out, events := d.events);
    if w.conn.open {
      TrackSnoc(w.conn.events, HighWaterCb(d.out.Pending()));
    }
    assert Track(d.events) == Track(w.conn.events);
    hide SendInv, Conn.SendInLoop, ReadSlotInv, LifeInv;
  }

  lemma SendKeepsTrace(w: World, thread: ThreadId, data: seq<byte>)
    requires Sound(w) && Enabled(w, Send(thread, data)) && TraceInv(w)
    ensures TraceInv(Next(w, Send(thread, data)))
  {
    hide SendInv, ReadSlotInv, Conn.SendInLoop;
    if w.loop.IsInLoopThread(thread) {
      DoSendKeepsTrace(w.(sends := w.sends.(calls := w.sends.calls + [Msg(thread, data)])), Msg(thread, data));
    }
  }

  lemma AttachKeepsTrace(w: World)
    requires TraceInv(w) && w.life != Attached && Untouched(w)
    ensures TraceInv(OnAttachedToLoop(w))
  {
    TrackSnoc(w.conn.events, ConnectedCb);
  }

  lemma RunTaskKeepsTrace(w: World)
    requires Sound(w) && Enabled(w, RunTask) && TraceInv(w)
    ensures TraceInv(Next(w, RunTask))
  {
    hide SendInv, ReadSlotInv, Conn.SendInLoop;
    var task, v := w.loop.queue[0], w.(loop := w.loop.Pop());
    match task
    case SendTask(msg) => DoSendKeepsTrace(v, msg);
    case AttachTask => AttachKeepsTrace(v);
    case CloseTask =>
  }

  /** What HandleWrite changes outside the send buffers, up to its callbacks. */
  ghost predicate AfterWritten(w: World, v: World) {
    var failed := w.conn.out.writeOp.WriteFailed?;
    w.life == Attached && v.life == Attached && w.pc == Idle && v.conn.readOp == w.conn.readOp &&
    v.conn.recv == w.conn.recv && v.conn.open == (w.conn.open && !failed) && w.conn.out.writeOp != NoWrite &&
    if failed then
      v.pc == InClose && v.conn.status == Disconnecting && v.conn.out.writeOp == NoWrite &&
      v.flags == w.flags.(writeFailed := true) &&
      v.conn.events == w.conn.events + [ClosingCb(w.conn.fns.conn, w.conn.fns.close)]
    else
      v.pc == Idle && v.flags == w.flags && v.conn.events == w.conn.events && v.conn.status == w.conn.status
  }

  lemma WrittenParts(w: World)
    requires Sound(w) && Enabled(w, Written)
    ensures AfterWritten(w, Next(w, Written))
  {
    assert w.life == Attached;
    hide StreamInv, CursorInv, LifeInv, ReadSlotInv, Outbound.Written;
  }

  lemma AfterWrittenKeepsTrace(w: World, v: World)
    requires TraceInv(w) && AfterWritten(w, v)
    ensures TraceInv(v)
  {
    hide Track;
    TrackSnoc(w.conn.events, ClosingCb(w.conn.fns.conn, w.conn.fns.close));
  }

  lemma WrittenKeepsTrace(w: World)
    requires Sound(w) && Enabled(w, Written) && TraceInv(w)
    ensures TraceInv(Next(w, Written))
  {
    hide Sound, Enabled, Next, TraceInv, AfterWritten;
    WrittenParts(w);
    AfterWrittenKeepsTrace(w, Next(w, Written));
  }

  /** What HandleRead changes, up to its callback. */
  ghost predicate AfterRead(w: World, v: World) {
    var failed := w.conn.readOp.ReadFailed?;
    w.life == Attached && v.life == Attached && w.pc == Idle && (failed || w.conn.readOp.Got?) &&
    v.conn.readOp == NoRead && v.conn.out == w.conn.out &&
    v.pc == (if failed then InClose else InMessage) &&
    v.conn.open == (w.conn.open && !failed) &&
    v.conn.events == w.conn.events + [if failed then ClosingCb(w.conn.fns.conn, w.conn.fns.close) else MessageCb] &&
    v.flags == w.flags.(readFailed := w.flags.readFailed || failed) &&
    v.conn.status == if failed then Disconnecting else w.conn.status
  }

  lemma ReadCases(w: World)
    requires Sound(w) && Enabled(w, Read)
    ensures AfterRead(w, Next(w, Read))
  {
    assert w.life == Attached;
    hide SendInv, LifeInv;
  }

  lemma AfterReadKeepsTrace(w: World, v: World)
    requires TraceInv(w) && AfterRead(w, v)
    ensures TraceInv(v)
  {
    hide Track;
    TrackSnoc(w.conn.events, if w.conn.readOp.ReadFailed? then ClosingCb(w.conn.fns.conn, w.conn.fns.close) else MessageCb);
  }

  lemma ReadKeepsTrace(w: World)
    requires Sound(w) && Enabled(w, Read) && TraceInv(w)
    ensures TraceInv(Next(w, Read))
  {
    hide Sound, Enabled, Next, TraceInv, AfterRead;
    ReadCases(w);
    AfterReadKeepsTrace(w, Next(w, Read));
  }

  lemma OthersKeepTrace(w: World, s: Step)
    requires Sound(w) && Enabled(w, s) && TraceInv(w)
    requires !s.Send? && !s.RunTask? && !s.Written? && !s.Read?
    ensures TraceInv(Next(w, s))
  {
    if s.AttachInline? {
      AttachKeepsTrace(w);
    } else {
      hide SlotInv, StreamInv, CursorInv, Track;
    }
  }

  lemma NextKeepsTrace(w: World, s: Step)
    requires Sound(w) && Enabled(w, s) && TraceInv(w)
    ensures TraceInv(Next(w, s))
  {
    hide Sound, Enabled, TraceInv, Next;
    match s
    case Send(thread, data) => SendKeepsTrace(w, thread, data);
    case RunTask => RunTaskKeepsTrace(w);
    case Written => WrittenKeepsTrace(w);
    case Read => ReadKeepsTrace(w);
    case _ => OthersKeepTrace(w, s);
  }

  lemma {:induction false} RunsKeepTrace(w: World, steps: seq<Step>)
    requires Sound(w) && Runs(w, steps) && TraceInv(w)
    ensures TraceInv(After(w, steps))
    decreases |steps|
  {
    if steps != [] {
      hide Sound, Enabled, TraceInv, Next;
      NextIsSound(w, steps[0]);
      NextKeepsTrace(w, steps[0]);
      RunsKeepTrace(Next(w, steps[0]), steps[1..]);
    }
  }

  lemma InitHasTrace(tid: ThreadId, fns: Callbacks)
    ensures TraceInv(Init(tid, fns))
  {
  }

  lemma ReachedHasTrace(tid: ThreadId, fns: Callbacks, steps: seq<Step>)
    requires Run(tid, fns, steps)
    ensures TraceInv(Reached(tid, fns, steps))
  {
    InitIsSound(tid, fns);
    InitHasTrace(tid, fns);
    hide Sound, Enabled, TraceInv, Next, Init;
    RunsKeepTrace(Init(tid, fns), steps);
  }

  // ------------------------------------------------------------------------------------------------
  // The theorems
  // ------------------------------------------------------------------------------------------------

  /** Exactly one read is outstanding from the attachment until the first failed read, callbacks apart. */
  lemma OneReadOutstanding(tid: ThreadId, fns: Callbacks, steps: seq<Step>)
    requires Run(tid, fns, steps)
    ensures var w := Reached(tid, fns, steps);
      w.life == Attached ==>
        (w.conn.readOp != NoRead <==> !w.flags.readFailed && w.pc != InAttach && w.pc != InMessage)
  {
    hide Init, SendInv;
    ReachedHasTrace(tid, fns, steps);
  }

  /** Nothing is running, queued or in flight. */
  ghost predicate Quiescent(w: World) {
    w.life == Attached && w.pc == Idle && w.loop.queue == [] &&
    w.conn.readOp == NoRead && w.conn.out.writeOp == NoWrite
  }

  /**
   When a connection comes to rest its socket is closed; its status is Disconnected exactly when Close()
   was not called after the last failed completion was handled; and, if every message callback left free
   space, the callbacks it made are: connected, messages, and then one closing notification, or two with
   at most one late message between them - two exactly when both a read and a write have failed.
   */
  lemma LifeEndsInOrder(tid: ThreadId, fns: Callbacks, steps: seq<Step>)
    requires Run(tid, fns, steps) && Quiescent(Reached(tid, fns, steps))
    ensures var w := Reached(tid, fns, steps);
      !w.conn.open &&
      (w.conn.status == Disconnected <==> !w.flags.closeCalled) &&
      (w.flags.roomKept ==>
         if w.flags.writeFailed then EndsTwice(Letters(w.conn.events)) else EndsOnce(Letters(w.conn.events)))
  {
    hide Init, SendInv;
    ReachedHasTrace(tid, fns, steps);
    var w := Reached(tid, fns, steps);
    if w.flags.roomKept {
      TrackRecognises(w.conn.events);
    }
  }

  /**
   The status, in every reachable state: Disconnecting inside a close notification and from a call of Close()
   until the attachment or the end of HandleClose overwrites it; otherwise Connected from the attachment to
   the first failed completion, and Disconnected before and after.
   */
  lemma StatusIsExact(tid: ThreadId, fns: Callbacks, steps: seq<Step>)
    requires Run(tid, fns, steps)
    ensures var w := Reached(tid, fns, steps); w.conn.status == StatusOf(w)
  {
    hide Init, SendInv;
    ReachedHasTrace(tid, fns, steps);
  }

  /** Before that, the trace is always a beginning of such a life. */
  lemma LifeIsAlwaysAPrefix(tid: ThreadId, fns: Callbacks, steps: seq<Step>)
    requires Run(tid, fns, steps) && Reached(tid, fns, steps).flags.roomKept
    ensures var w := Reached(tid, fns, steps);
      Track(w.conn.events) != Broken && Word(Track(w.conn.events), Letters(w.conn.events))
  {
    hide Init, SendInv;
    ReachedHasTrace(tid, fns, steps);
    TrackWord(Reached(tid, fns, steps).conn.events);
  }
}
