/**
 What becomes of the callback language when a consumer leaves no free space: once a read into no room at all is
 outstanding, exactly when the connection can still leave the language.
 */
module ConnectionRoom {
  import opened ByteBuffers
  import opened Connections
  import opened EventLoops
  import opened ConnectionRuns
  import opened ConnectionTrace

  ghost predicate Leads(w: World, v: World) {
    Sound(w) && Sound(v) && exists steps :: Runs(w, steps) && After(w, steps) == v
  }

  lemma LeadsNowhere(w: World)
    requires Sound(w)
    ensures Leads(w, w)
  {
    assert Runs(w, []) && After(w, []) == w;
  }

  lemma StepLeads(w: World, s: Step)
    requires Sound(w) && Enabled(w, s)
    ensures Sound(Next(w, s)) && Leads(w, Next(w, s))
  {
    hide Sound, Enabled, Next;
    RunsOne(w, s);
  }

  lemma LeadsOn(a: World, b: World, c: World)
    requires Leads(a, b) && Leads(b, c)
    ensures Leads(a, c)
  {
    hide Sound;
    var x :| Runs(a, x) && After(a, x) == b;
    var y :| Runs(b, y) && After(b, y) == c;
    RunsAppend(a, x, y);
  }

  /** At rest with a read into no room outstanding. */
  ghost predicate Stuffed(w: World) {
    Sound(w) && w.life == Attached && w.pc == Idle && w.conn.readOp == Reading(0)
  }

  /** The language has not been left. */
  ghost predicate InOrder(w: World) {
    ReadInv(w) && CloseInv(w) && PhaseInv(Track(w.conn.events), w)
  }

  /** A write has failed, or one can be made to: the socket is open, or one is in flight, or one is about to follow. */
  ghost predicate CanStillFail(w: World)
    requires Sound(w)
  {
    var o := w.conn.out;
    w.flags.writeFailed || w.conn.open || o.writeOp.Writing? || o.writeOp.WriteFailed? ||
    (o.writeOp.Wrote? && o.writeOp.bytes < o.Pending())
  }

  // ---- rounds of empty messages ----

  lemma EmptyReadLooks(w: World)
    requires Stuffed(w)
    ensures Enabled(w, KernelReads([]))
    ensures var v := Next(w, KernelReads([]));
      v.life == w.life && v.pc == w.pc && v.conn.readOp == Got(0) && v.conn.events == w.conn.events &&
      v.conn.recv.wpos == |v.conn.recv.storage|
  {
    hide SendInv, LifeInv;
  }

  lemma MessageLooks(w: World)
    requires Sound(w) && w.life == Attached && w.pc == Idle && w.conn.readOp == Got(0) && w.conn.recv.wpos == |w.conn.recv.storage|
    ensures Enabled(w, Read)
    ensures var v := Next(w, Read);
      v.life == w.life && v.pc == InMessage && v.conn.events == w.conn.events + [MessageCb] && v.conn.recv == w.conn.recv
  {
    hide SendInv, LifeInv;
  }

  lemma EndLooks(w: World)
    requires Sound(w) && w.life == Attached && w.pc == InMessage && w.conn.recv.wpos == |w.conn.recv.storage|
    ensures Enabled(w, EndMessage)
    ensures var v := Next(w, EndMessage);
      v.life == w.life && v.pc == Idle && v.conn.events == w.conn.events && v.conn.readOp == Reading(0)
  {
    hide SendInv, LifeInv;
  }

  lemma EmptyMessage(w: World) returns (v: World)
    requires Stuffed(w)
    ensures Leads(w, v) && Stuffed(v) && Track(v.conn.events) == Move(Track(w.conn.events), MessageCb)
  {
    EmptyReadLooks(w);
    assert Sound(w);
    hide Sound, Enabled, Next, Leads, Track;
    var a := Next(w, KernelReads([]));
    StepLeads(w, KernelReads([]));
    MessageLooks(a);
    var b := Next(a, Read);
    StepLeads(a, Read);
    EndLooks(b);
    v := Next(b, EndMessage);
    StepLeads(b, EndMessage);
    LeadsOn(w, a, b);
    LeadsOn(w, b, v);
    TrackSnoc(w.conn.events, MessageCb);
  }

  // ---- making a write fail ----

  lemma FailedLooks(w: World)
    requires Stuffed(w) && w.conn.out.writeOp.WriteFailed?
    ensures Enabled(w, Written)
    ensures var v := Next(w, Written);
      v.life == w.life && v.pc == InClose && v.conn.readOp == w.conn.readOp &&
      v.conn.events == w.conn.events + [ClosingCb(w.conn.fns.conn, w.conn.fns.close)]
  {
    hide StreamInv, CursorInv, LifeInv, Outbound.Written;
  }

  lemma EndCloseLooks(w: World)
    requires Sound(w) && w.pc == InClose
    ensures Enabled(w, EndClose)
    ensures var v := Next(w, EndClose);
      v.life == w.life && v.pc == Idle && v.conn.readOp == w.conn.readOp && v.conn.events == w.conn.events
  {
    hide SendInv, LifeInv, ReadSlotInv;
  }

  lemma HandleFailure(w: World) returns (v: World)
    requires Stuffed(w) && w.conn.out.writeOp.WriteFailed? && Track(w.conn.events) == Live
    ensures Leads(w, v) && Stuffed(v) && Track(v.conn.events) == Closed
  {
    FailedLooks(w);
    hide Sound, Enabled, Next, Leads, Track;
    var a := Next(w, Written);
    StepLeads(w, Written);
    EndCloseLooks(a);
    v := Next(a, EndClose);
    StepLeads(a, EndClose);
    LeadsOn(w, a, v);
    TrackSnoc(w.conn.events, ClosingCb(w.conn.fns.conn, w.conn.fns.close));
  }

  lemma FailWriting(w: World) returns (v: World)
    requires Stuffed(w) && w.conn.out.writeOp.Writing? && Track(w.conn.events) == Live
    ensures Leads(w, v) && Stuffed(v) && Track(v.conn.events) == Closed
  {
    var a := Next(w, KernelFailsWrite);
    assert a.life == w.life && a.pc == Idle && a.conn.readOp == w.conn.readOp && a.conn.events == w.conn.events;
    assert a.conn.out.writeOp == WriteFailed && Enabled(w, KernelFailsWrite);
    hide Sound, Enabled, Next, Leads, Track;
    StepLeads(w, KernelFailsWrite);
    v := HandleFailure(a);
    LeadsOn(w, a, v);
  }

  lemma SendLooks(w: World)
    requires Stuffed(w) && w.conn.out.writeOp == NoWrite && w.conn.open
    ensures Enabled(w, Send(w.loop.tid, [7]))
    ensures var v := Next(w, Send(w.loop.tid, [7]));
      v.life == w.life && v.pc == Idle && v.conn.readOp == w.conn.readOp && v.conn.events == w.conn.events &&
      v.conn.out.writeOp.Writing?
  {
    SendCases(w.conn.out, [7]);
    hide StreamInv, CursorInv, LifeInv, ReadSlotInv, Outbound.Send;
  }

  lemma FailNew(w: World) returns (v: World)
    requires Stuffed(w) && w.conn.out.writeOp == NoWrite && w.conn.open && Track(w.conn.events) == Live
    ensures Leads(w, v) && Stuffed(v) && Track(v.conn.events) == Closed
  {
    SendLooks(w);
    hide Sound, Enabled, Next, Leads, Track;
    var a := Next(w, Send(w.loop.tid, [7]));
    StepLeads(w, Send(w.loop.tid, [7]));
    v := FailWriting(a);
    LeadsOn(w, a, v);
  }

  lemma WrittenLooks(w: World)
    requires Stuffed(w) && w.conn.out.writeOp.Wrote?
    ensures Enabled(w, Written)
    ensures var v := Next(w, Written);
      v.life == w.life && v.pc == Idle && v.conn.readOp == w.conn.readOp && v.conn.events == w.conn.events &&
      v.conn.open == w.conn.open && v.flags == w.flags &&
      if w.conn.out.writeOp.bytes < w.conn.out.Pending() then v.conn.out.writeOp.Writing? else v.conn.out.writeOp == NoWrite
  {
    WrittenCases(w.conn.out);
    hide StreamInv, CursorInv, LifeInv, ReadSlotInv, Outbound.Written;
  }

  lemma FailNext(w: World) returns (v: World)
    requires Stuffed(w) && w.conn.out.writeOp.Wrote? && Track(w.conn.events) == Live
    requires w.conn.open || w.conn.out.writeOp.bytes < w.conn.out.Pending()
    ensures Leads(w, v) && Stuffed(v) && Track(v.conn.events) == Closed
  {
    WrittenLooks(w);
    hide Sound, Enabled, Next, Leads, Track;
    var a := Next(w, Written);
    StepLeads(w, Written);
    if a.conn.out.writeOp.Writing? {
      v := FailWriting(a);
    } else {
      v := FailNew(a);
    }
    LeadsOn(w, a, v);
  }

  lemma FailSomehow(w: World) returns (v: World)
    requires Stuffed(w) && InOrder(w) && CanStillFail(w)
    ensures Leads(w, v) && Stuffed(v) && Track(v.conn.events) == Closed
  {
    hide Track, Leads, StreamInv, CursorInv, LifeInv, ReadSlotInv;
    if w.flags.writeFailed {
      LeadsNowhere(w);
      v := w;
    } else {
      match w.conn.out.writeOp
      case NoWrite => v := FailNew(w);
      case Writing(_) => v := FailWriting(w);
      case Wrote(_) => v := FailNext(w);
      case WriteFailed => v := HandleFailure(w);
    }
  }

  // ---- the connections that cannot ----

  /** Closed, no write will ever fail, and still in order. */
  ghost predicate Dead(w: World) {
    Sound(w) && InOrder(w) && w.life == Attached && !CanStillFail(w)
  }

  lemma WrittenKeepsDead(w: World)
    requires Dead(w) && Enabled(w, Written)
    ensures var v := Next(w, Written);
      v.life == w.life && v.pc == Idle && v.conn.open == w.conn.open && v.flags == w.flags && v.conn.out.writeOp == NoWrite &&
      v.conn.events == w.conn.events && v.conn.readOp == w.conn.readOp
  {
    WrittenCases(w.conn.out);
    hide StreamInv, CursorInv, LifeInv, ReadSlotInv, Outbound.Written, Track;
  }

  lemma ReadKeepsDead(w: World)
    requires Dead(w) && Enabled(w, Read)
    ensures var v := Next(w, Read);
      v.life == Attached && !v.conn.open && v.conn.out == w.conn.out && !v.flags.writeFailed &&
      PhaseInv(Track(v.conn.events), v)
  {
    ReadCases(w);
    TrackSnoc(w.conn.events, if w.conn.readOp.ReadFailed? then ClosingCb(w.conn.fns.conn, w.conn.fns.close) else MessageCb);
    hide StreamInv, CursorInv, LifeInv, ReadSlotInv, Track, Next;
  }

  lemma OthersKeepDead(w: World, s: Step)
    requires Dead(w) && Enabled(w, s) && s != Read && s != Written
    ensures var v := Next(w, s);
      v.life == Attached && !v.conn.open && v.conn.out == w.conn.out && v.conn.events == w.conn.events &&
      v.flags.writeFailed == w.flags.writeFailed && v.flags.readFailed == w.flags.readFailed
  {
    hide StreamInv, CursorInv, ReadSlotInv, Track;
  }

  lemma StepKeepsDead(w: World, s: Step)
    requires Dead(w) && Enabled(w, s)
    ensures Dead(Next(w, s))
  {
    NextIsSound(w, s);
    NextKeepsTrace(w, s);
    if s == Read {
      ReadKeepsDead(w);
    } else if s == Written {
      WrittenKeepsDead(w);
    } else {
      OthersKeepDead(w, s);
    }
    hide Sound, Enabled, Next, Track;
  }

  lemma {:induction false} RunsKeepDead(w: World, steps: seq<Step>)
    requires Dead(w) && Runs(w, steps)
    ensures Dead(After(w, steps))
    decreases |steps|
  {
    if steps != [] {
      FirstStep(w, steps);
      assert Sound(w);
      hide Dead, Enabled, Next, Sound;
      StepKeepsDead(w, steps[0]);
      RunsKeepDead(Next(w, steps[0]), steps[1..]);
    }
  }

  ghost predicate CanBreak(w: World)
    requires Sound(w)
  {
    exists steps :: Runs(w, steps) && Track(After(w, steps).conn.events) == Broken
  }

  /**
   From every state in which a read into no room is outstanding and the language has not been left yet, it can
   be left - by messages that keep coming after the close notification - exactly when a write has failed or can
   still be made to.  The read itself goes on succeeding with nothing, even on a closed socket.
   */
  lemma WithoutRoomBreaksIff(w: World)
    requires Stuffed(w) && InOrder(w)
    ensures CanBreak(w) <==> CanStillFail(w)
  {
    if CanStillFail(w) {
      var a := FailSomehow(w);
      var b := EmptyMessage(a);
      var c := EmptyMessage(b);
      hide Sound, Track, CanStillFail, Stuffed;
      LeadsOn(w, a, b);
      LeadsOn(w, b, c);
      var steps :| Runs(w, steps) && After(w, steps) == c;
      assert Track(After(w, steps).conn.events) == Broken;
    } else {
      assert Dead(w);
      forall steps | Runs(w, steps) ensures Track(After(w, steps).conn.events) != Broken {
        RunsKeepDead(w, steps);
      }
    }
  }
}
