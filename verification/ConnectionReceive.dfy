/**
 The receive side over whole runs: what the consumer has read, what waits in recv_buffer_ and what the
 kernel has just placed behind it are together the bytes that arrived; and the consumer the library's own
 server and client use (src/tcp_server_impl.h) gets every byte once, in order.
 */
module ConnectionReceive {
  import opened ByteBuffers
  import opened Connections
  import opened EventLoops
  import opened ConnectionRuns

  ghost function Joined(chunks: seq<seq<byte>>): seq<byte> {
    if chunks == [] then [] else Joined(chunks[..|chunks| - 1]) + chunks[|chunks| - 1]
  }

  lemma JoinedSnoc(chunks: seq<seq<byte>>, chunk: seq<byte>)
    ensures Joined(chunks + [chunk]) == Joined(chunks) + chunk
  {
    assert (chunks + [chunk])[..|chunks|] == chunks;
  }

  /** Bytes the kernel has put behind the write cursor and HandleRead has not yet counted. */
  ghost function Landed(recv: Buf, op: ReadOp): seq<byte>
    requires recv.Valid()
  {
    if op.Got? && op.bytes <= recv.ValidSize() then recv.storage[recv.wpos..recv.wpos + op.bytes] else []
  }

  ghost predicate ReceiptInv(w: World)
    requires w.conn.recv.Valid()
  {
    var recv := w.conn.recv;
    w.receipts.consumed + recv.Unread() + Landed(recv, w.conn.readOp) == w.receipts.arrived &&
    INITIAL_CAPACITY <= recv.Capacity()
  }

  /** If every callback emptied and normalised the buffer, each chunk handed over was exactly what was new. */
  ghost predicate DrainInv(w: World)
    requires w.conn.recv.Valid()
  {
    var recv, op := w.conn.recv, w.conn.readOp;
    w.flags.drained ==>
      (w.pc != InMessage ==> recv.rpos == 0 && recv.wpos == 0) &&
      (op.Reading? ==> op.room == recv.Capacity()) &&
      Joined(w.receipts.chunks) + Landed(recv, op) == w.receipts.arrived
  }

  ghost predicate ReceiveInv(w: World) {
    w.conn.recv.Valid() && ReceiptInv(w) && DrainInv(w)
  }

  lemma KernelReadsKeepsReceive(w: World, got: seq<byte>)
    requires Sound(w) && Enabled(w, KernelReads(got)) && ReceiveInv(w)
    ensures ReceiveInv(Next(w, KernelReads(got)))
  {
    hide SendInv, LifeInv;
    FillCommits(w.conn.recv, got);
    var v := Next(w, KernelReads(got));
    assert Landed(v.conn.recv, v.conn.readOp) == got;
    var a, u := w.receipts.consumed, w.conn.recv.Unread();
    assert a + u + [] == a + u;
    assert Joined(w.receipts.chunks) + [] == Joined(w.receipts.chunks);
  }

  lemma KernelFailsReadKeepsReceive(w: World, eof: bool)
    requires Sound(w) && Enabled(w, KernelFailsRead(eof)) && ReceiveInv(w)
    ensures ReceiveInv(Next(w, KernelFailsRead(eof)))
  {
    hide SendInv, LifeInv;
  }

  /** Counting what landed moves it from behind the write cursor to in front of it. */
  lemma CountLanded(recv: Buf, n: nat)
    requires recv.Valid() && n <= recv.ValidSize()
    ensures var next := recv.WriteBytes(n);
      next.Valid() && next.Unread() == recv.Unread() + Landed(recv, Got(n)) &&
      (recv.rpos == recv.wpos == 0 ==> next.storage[..next.Size()] == Landed(recv, Got(n)))
  {
    assert recv.storage[recv.rpos..recv.wpos + n] == recv.storage[recv.rpos..recv.wpos] + recv.storage[recv.wpos..recv.wpos + n];
  }

  lemma MoveAlong(a: seq<byte>, u: seq<byte>, l: seq<byte>)
    ensures a + (u + l) + [] == a + u + l && a + l + [] == a + l
  {
  }

  lemma CountingKeepsReceive(w: World, v: World, n: nat)
    requires ReceiveInv(w) && w.conn.readOp == Got(n) && n <= w.conn.recv.ValidSize() && w.pc != InMessage
    requires v.conn.recv == w.conn.recv.WriteBytes(n) && v.conn.readOp == NoRead && v.pc == InMessage
    requires v.flags == w.flags
    requires v.receipts == w.receipts.(chunks := w.receipts.chunks + [v.conn.recv.storage[..v.conn.recv.wpos - v.conn.recv.rpos]])
    ensures ReceiveInv(v)
  {
    var recv := w.conn.recv;
    CountLanded(recv, n);
    var l := Landed(recv, w.conn.readOp);
    MoveAlong(w.receipts.consumed, recv.Unread(), l);
    MoveAlong(Joined(w.receipts.chunks), [], l);
    JoinedSnoc(w.receipts.chunks, l);
    hide Joined, Buf.Unread;
  }

  /** What HandleRead does to the receive side, up to its callback. */
  lemma ReadParts(w: World)
    requires Sound(w) && Enabled(w, Read)
    ensures var v, op := Next(w, Read), w.conn.readOp;
      v.conn.readOp == NoRead &&
      if op.Got? then
        op.bytes <= w.conn.recv.ValidSize() && v.conn.recv == w.conn.recv.WriteBytes(op.bytes) && v.pc == InMessage &&
        v.flags == w.flags &&
        v.receipts == w.receipts.(chunks := w.receipts.chunks + [v.conn.recv.storage[..v.conn.recv.wpos - v.conn.recv.rpos]])
      else v.conn.recv == w.conn.recv && v.receipts == w.receipts && v.flags.drained == w.flags.drained && v.pc == InClose
  {
    hide SendInv, LifeInv;
  }

  lemma FailedReadKeepsReceive(w: World, v: World)
    requires ReceiveInv(w) && w.conn.readOp.ReadFailed? && w.pc == Idle
    requires v.conn.recv == w.conn.recv && v.receipts == w.receipts && v.flags.drained == w.flags.drained
    requires v.conn.readOp == NoRead && v.pc == InClose
    ensures ReceiveInv(v)
  {
  }

  lemma ReadKeepsReceive(w: World)
    requires Sound(w) && Enabled(w, Read) && ReceiveInv(w)
    ensures ReceiveInv(Next(w, Read))
  {
    hide Sound, Next, ReceiveInv;
    ReadParts(w);
    if w.conn.readOp.Got? {
      CountingKeepsReceive(w, Next(w, Read), w.conn.readOp.bytes);
    } else {
      FailedReadKeepsReceive(w, Next(w, Read));
    }
  }

  /** The consumer takes `count` bytes and may rearrange the rest; no read is outstanding meanwhile. */
  lemma ConsumingKeepsReceive(w: World, v: World, count: nat)
    requires ReceiveInv(w) && w.pc == InMessage && w.conn.readOp == NoRead && count <= w.conn.recv.Size()
    requires v.pc == w.pc && v.conn.readOp == NoRead && v.flags == w.flags
    requires v.conn.recv.Valid() && w.conn.recv.Capacity() <= v.conn.recv.Capacity()
    requires v.conn.recv.Unread() == w.conn.recv.Unread()[count..]
    requires v.receipts == w.receipts.(consumed := w.receipts.consumed + w.conn.recv.Unread()[..count])
    ensures ReceiveInv(v)
  {
    var a, u := w.receipts.consumed, w.conn.recv.Unread();
    hide Buf.Unread, Joined;
    assert u == u[..count] + u[count..];
    assert (a + u[..count]) + u[count..] + [] == a + u + [];
  }

  lemma ConsumerKeepsReceive(w: World, s: Step)
    requires Sound(w) && Enabled(w, s) && ReceiveInv(w)
    requires s.ConsumeBytes? || s.ConsumeNormalize? || s.ConsumeEnsure? || s.ConsumeEstimate?
    ensures ReceiveInv(Next(w, s))
  {
    var recv, v := w.conn.recv, Next(w, s);
    var count := if s.ConsumeBytes? then s.count else 0;
    ConsumerParts(w, s);
    hide Sound, Next, ReceiveInv, Enabled;
    ConsumingKeepsReceive(w, v, count);
  }

  lemma NothingTaken(a: seq<byte>, u: seq<byte>)
    ensures a + u[..0] == a && u[0..] == u
  {
  }

  lemma ConsumerParts(w: World, s: Step)
    requires Sound(w) && Enabled(w, s)
    requires s.ConsumeBytes? || s.ConsumeNormalize? || s.ConsumeEnsure? || s.ConsumeEstimate?
    ensures var v, count := Next(w, s), if s.ConsumeBytes? then s.count else 0;
      var u := w.conn.recv.Unread();
      w.pc == InMessage && w.conn.readOp == NoRead && count <= w.conn.recv.Size() &&
      v.pc == w.pc && v.conn.readOp == NoRead && v.flags == w.flags &&
      v.conn.recv.Valid() && w.conn.recv.Capacity() <= v.conn.recv.Capacity() &&
      v.conn.recv.Unread() == u[count..] &&
      v.receipts == w.receipts.(consumed := w.receipts.consumed + u[..count])
  {
    hide SendInv, LifeInv, Buf.Unread, Buf.Normalize, Buf.EnsureValidSize, Buf.EstimateSize;
    var recv := w.conn.recv;
    NothingTaken(w.receipts.consumed, recv.Unread());
    match s
    case ConsumeBytes(count) => ReadDrops(recv, count);
    case ConsumeNormalize => NormalizeKeepsUnread(recv);
    case ConsumeEnsure => EnsureGivesRoomIff(recv);
    case ConsumeEstimate(size) => EstimateMakesRoom(recv, size);
  }

  lemma SameReceiveSide(w: World, v: World)
    requires ReceiveInv(w) && v.conn.recv == w.conn.recv && v.conn.readOp == w.conn.readOp
    requires v.receipts == w.receipts && v.flags.drained == w.flags.drained && v.pc != InMessage && w.pc != InMessage
    ensures ReceiveInv(v)
  {
  }

  lemma DoSendKeepsReceive(w: World, msg: Msg)
    requires Sound(w) && ReceiveInv(w)
    ensures ReceiveInv(DoSend(w, msg))
  {
    hide SendInv, LifeInv, Landed, Joined, Buf.Unread, Conn.SendInLoop;
    SendInLoopKeepsInv(w.conn, msg.data);
  }

  lemma SendsKeepReceive(w: World, s: Step)
    requires Sound(w) && Enabled(w, s) && ReceiveInv(w) && (s.Send? || s.RunTask?)
    ensures ReceiveInv(Next(w, s))
  {
    hide SendInv, Conn.SendInLoop, Landed, Joined, Buf.Unread;
    assert s.RunTask? && w.loop.queue[0].SendTask? ==> Sound(w.(loop := w.loop.Pop()));
    match s
    case Send(thread, data) =>
      var v := w.(sends := w.sends.(calls := w.sends.calls + [Msg(thread, data)]));
      DoSendKeepsReceive(v, Msg(thread, data));
    case RunTask =>
      var task, v := w.loop.queue[0], w.(loop := w.loop.Pop());
      if task.SendTask? {
        hide LifeInv;
        DoSendKeepsReceive(v, task.msg);
      }
  }

  /** Everything else leaves the receive side alone, or starts a read on it. */
  lemma OthersKeepReceive(w: World, s: Step)
    requires Sound(w) && Enabled(w, s) && ReceiveInv(w)
    requires !s.KernelReads? && !s.KernelFailsRead? && !s.Read?
    requires !s.ConsumeBytes? && !s.ConsumeNormalize? && !s.ConsumeEnsure? && !s.ConsumeEstimate?
    ensures ReceiveInv(Next(w, s))
  {
    match s
    case Send(_, _) => SendsKeepReceive(w, s);
    case RunTask => SendsKeepReceive(w, s);
    case Written =>
      hide SlotInv, StreamInv, CursorInv, LifeInv, Outbound.Written, ReceiveInv;
      SameReceiveSide(w, Next(w, s));
    case _ =>
      hide SlotInv, StreamInv, CursorInv, LifeInv, Joined, Buf.Unread;
  }

  lemma NextKeepsReceive(w: World, s: Step)
    requires Sound(w) && Enabled(w, s) && ReceiveInv(w)
    ensures ReceiveInv(Next(w, s))
  {
    hide Sound, Enabled, ReceiveInv, Next;
    match s
    case KernelReads(got) => KernelReadsKeepsReceive(w, got);
    case KernelFailsRead(eof) => KernelFailsReadKeepsReceive(w, eof);
    case Read => ReadKeepsReceive(w);
    case ConsumeBytes(_) => ConsumerKeepsReceive(w, s);
    case ConsumeNormalize => ConsumerKeepsReceive(w, s);
    case ConsumeEnsure => ConsumerKeepsReceive(w, s);
    case ConsumeEstimate(_) => ConsumerKeepsReceive(w, s);
    case _ => OthersKeepReceive(w, s);
  }

  lemma {:induction false} RunsKeepReceive(w: World, steps: seq<Step>)
    requires Sound(w) && Runs(w, steps) && ReceiveInv(w)
    ensures ReceiveInv(After(w, steps))
    decreases |steps|
  {
    if steps != [] {
      hide Sound, Enabled, ReceiveInv, Next;
      NextIsSound(w, steps[0]);
      NextKeepsReceive(w, steps[0]);
      RunsKeepReceive(Next(w, steps[0]), steps[1..]);
    }
  }

  lemma InitHasReceive(tid: ThreadId, fns: Callbacks)
    ensures ReceiveInv(Init(tid, fns))
  {
    var f := Fresh(INITIAL_CAPACITY);
    assert f.Unread() == [];
    var none: seq<byte> := [];
    assert none + f.Unread() + none == none;
  }

  lemma ReachedHasReceive(tid: ThreadId, fns: Callbacks, steps: seq<Step>)
    requires Run(tid, fns, steps)
    ensures ReceiveInv(Reached(tid, fns, steps))
  {
    InitIsSound(tid, fns);
    InitHasReceive(tid, fns);
    hide Sound, Enabled, ReceiveInv, Next, Init;
    RunsKeepReceive(Init(tid, fns), steps);
  }

  /** For any consumer at all: consumed, unread and just landed are what arrived, in order. */
  lemma ReceiptsAreComplete(tid: ThreadId, fns: Callbacks, steps: seq<Step>)
    requires Run(tid, fns, steps)
    ensures var w := Reached(tid, fns, steps);
      w.conn.recv.Valid() &&
      w.receipts.consumed + w.conn.recv.Unread() + Landed(w.conn.recv, w.conn.readOp) == w.receipts.arrived
  {
    hide Init, Sound;
    ReachedHasReceive(tid, fns, steps);
  }

  /** What OnRecvData_ leaves of the buffer it is given: everything read, both cursors at the start. */
  lemma DrainEmpties(recv: Buf)
    requires recv.Valid()
    ensures var d := recv.ReadBytes(recv.Size());
      d.Valid() && d.Normalize() == recv.(rpos := 0, wpos := 0)
  {
    ReadDrops(recv, recv.Size());
  }

  /** What may happen inside a message callback besides the consumer's own work on the buffer. */
  ghost predicate Outside(steps: seq<Step>) {
    forall s :: s in steps ==>
      s.Send? || s.Close? || s.KernelWrites? || s.KernelFailsWrite? || s.SetHighWater? || s.SetCallbacks?
  }

  /** Nothing else can, but the consumer's work and the end of the callback. */
  lemma OutsideIsComplete(w: World, s: Step)
    requires Sound(w) && w.pc == InMessage && Enabled(w, s)
    ensures Outside([s]) || s.ConsumeBytes? || s.ConsumeNormalize? || s.ConsumeEnsure? || s.ConsumeEstimate? || s.EndMessage?
  {
    hide SendInv;
  }

  /** Seen by the consumer, nothing happened. */
  ghost predicate SameCallback(w: World, v: World) {
    v.pc == InMessage && v.conn.recv == w.conn.recv &&
    v.flags.roomKept == w.flags.roomKept && v.flags.drained == w.flags.drained
  }

  lemma OutsideStepIsSame(w: World, s: Step)
    requires Sound(w) && w.pc == InMessage && Enabled(w, s) && Outside([s])
    ensures SameCallback(w, Next(w, s))
  {
    assert s in [s];
    hide SlotInv, StreamInv, CursorInv, LifeInv, ReadSlotInv;
    if s.Send? {
      SendInLoopKeepsInv(w.conn, s.data);
      hide SendInv, Conn.SendInLoop;
    }
  }

  lemma {:induction false} OutsideIsSame(w: World, steps: seq<Step>)
    requires Sound(w) && w.pc == InMessage && Runs(w, steps) && Outside(steps)
    ensures SameCallback(w, After(w, steps))
    decreases |steps|
  {
    if steps != [] {
      FirstStep(w, steps);
      assert steps[0] in steps && forall s :: s in steps[1..] ==> s in steps;
      hide Sound, Enabled, Next, Runs, After;
      OutsideStepIsSame(w, steps[0]);
      OutsideIsSame(Next(w, steps[0]), steps[1..]);
    }
  }

  /**
   A callback that is OnRecvData_ keeps both disciplines that the theorems ask of a consumer, whatever is sent,
   closed, posted and written before, between and after the two things it does to the buffer.
   */
  lemma DrainKeepsDiscipline(w: World, a: seq<Step>, b: seq<Step>, c: seq<Step>)
    requires Sound(w) && w.pc == InMessage && INITIAL_CAPACITY <= w.conn.recv.Capacity()
    requires Outside(a) && Outside(b) && Outside(c)
    requires Runs(w, a + ([ConsumeBytes(w.conn.recv.Size())] + (b + ([ConsumeNormalize] + (c + [EndMessage])))))
    ensures var v := After(w, a + ([ConsumeBytes(w.conn.recv.Size())] + (b + ([ConsumeNormalize] + (c + [EndMessage])))));
      v.pc == Idle && v.flags.roomKept == w.flags.roomKept && v.flags.drained == w.flags.drained
  {
    var recv := w.conn.recv;
    DrainEmpties(recv);
    hide Sound, Enabled, Next, Runs, After;
    var read := ConsumeBytes(recv.Size());
    var steps1 := c + [EndMessage];
    var steps2 := b + ([ConsumeNormalize] + steps1);
    RunsSplit(w, a, [read] + steps2);
    var w1 := After(w, a);
    OutsideIsSame(w, a);
    RunsSplit(w1, [read], steps2);
    FirstStep(w1, [read]);
    var w2 := Next(w1, read);
    AfterOne(w1, read);
    ReadAllLooks(w1);
    RunsSplit(w2, b, [ConsumeNormalize] + steps1);
    var w3 := After(w2, b);
    OutsideIsSame(w2, b);
    RunsSplit(w3, [ConsumeNormalize], steps1);
    FirstStep(w3, [ConsumeNormalize]);
    AfterOne(w3, ConsumeNormalize);
    var w4 := Next(w3, ConsumeNormalize);
    NormalizeLooks(w3);
    RunsSplit(w4, c, [EndMessage]);
    var w5 := After(w4, c);
    OutsideIsSame(w4, c);
    FirstStep(w5, [EndMessage]);
    AfterOne(w5, EndMessage);
    EndDrainedLooks(w5);
  }

  lemma AfterOne(w: World, s: Step)
    requires Sound(w) && Runs(w, [s])
    ensures Enabled(w, s) && After(w, [s]) == Next(w, s)
  {
    hide Sound, Next, Enabled;
    FirstStep(w, [s]);
  }

  lemma ReadAllLooks(w: World)
    requires Sound(w) && w.pc == InMessage
    ensures var s := ConsumeBytes(w.conn.recv.Size());
      Enabled(w, s) && Next(w, s).conn.recv == w.conn.recv.ReadBytes(w.conn.recv.Size()) &&
      Next(w, s).pc == w.pc && Next(w, s).flags == w.flags
  {
    hide SendInv, LifeInv;
  }

  lemma NormalizeLooks(w: World)
    requires Sound(w) && w.pc == InMessage
    ensures Enabled(w, ConsumeNormalize)
    ensures var v := Next(w, ConsumeNormalize);
      v.conn.recv == w.conn.recv.Normalize() && v.pc == w.pc && v.flags == w.flags
  {
    hide SendInv, LifeInv, Buf.Normalize;
  }

  lemma EndDrainedLooks(w: World)
    requires Sound(w) && w.pc == InMessage && w.conn.recv.rpos == 0 && w.conn.recv.wpos == 0
    requires INITIAL_CAPACITY <= w.conn.recv.Capacity()
    ensures Enabled(w, EndMessage) && Next(w, EndMessage).flags == w.flags && Next(w, EndMessage).pc == Idle
  {
    hide SendInv, LifeInv;
  }

  /**
   With the full-drain consumer: at every callback the unread bytes start at Data(), the chunks handed
   over so far are exactly what arrived (up to a read not yet handled), and every read offers the whole
   capacity of the buffer.
   */
  lemma DrainedConsumerSeesTheStream(tid: ThreadId, fns: Callbacks, steps: seq<Step>)
    requires Run(tid, fns, steps) && Reached(tid, fns, steps).flags.drained
    ensures var w := Reached(tid, fns, steps);
      w.conn.recv.Valid() &&
      Joined(w.receipts.chunks) + Landed(w.conn.recv, w.conn.readOp) == w.receipts.arrived &&
      (w.conn.readOp.Reading? ==> w.conn.readOp.room == w.conn.recv.Capacity() >= INITIAL_CAPACITY) &&
      Sound(w) &&
      (w.conn.readOp.Got? && Enabled(w, Read) ==>
         Next(w, Read).conn.recv.rpos == 0 &&
         Next(w, Read).receipts.chunks == w.receipts.chunks + [Landed(w.conn.recv, w.conn.readOp)])
  {
    ReachedHasReceive(tid, fns, steps);
    ReachedIsSound(tid, fns, steps);
    var w := Reached(tid, fns, steps);
    assert w.conn.readOp.Got? ==> w.conn.readOp.bytes <= w.conn.recv.ValidSize();
    hide Init, SendInv, LifeInv, Run, Reached;
    if w.conn.readOp.Got? && Enabled(w, Read) {
      var v := Next(w, Read);
      assert v.conn.recv.storage[..v.conn.recv.Size()] == Landed(w.conn.recv, w.conn.readOp);
    }
  }
}
