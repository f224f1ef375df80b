/**
 What is in the queue and what is popped: the entries that callers made, with what they were made with, and in each
 caller's own order.
 */
module LogContents {
  import opened LogQueues
  import opened LogOrder

  /** d carries the logger, and the level and text or the change, that its call was given. */
  ghost predicate IsCall(calls: seq<Call>, d: LogData) {
    d.serial < |calls| && calls[d.serial].id == d.id && SameContent(calls[d.serial].body, d.body)
  }

  ghost predicate IsOwn(calls: seq<Call>, d: LogData, t: nat) {
    IsCall(calls, d) && calls[d.serial].t == t
  }

  /** An entry not yet queued is in the hand of the thread that made it. */
  ghost predicate HandInv(calls: seq<Call>, thread: Thread, t: nat) {
    (thread.Holding? || thread.Passed? ==> IsOwn(calls, thread.d, t)) && (thread.Got? ==> IsCall(calls, thread.d))
  }

  ghost predicate SameCaller(calls: seq<Call>, a: LogData, b: LogData) {
    a.serial < |calls| && b.serial < |calls| && calls[a.serial].t == calls[b.serial].t
  }

  /** Of the records pushed, those of one thread are in the order of its calls, and all before the one in its hand. */
  ghost predicate PushedInv(calls: seq<Call>, pushed: seq<LogData>) {
    (forall d :: d in pushed ==> IsCall(calls, d)) &&
    (forall i, j :: 0 <= i < j < |pushed| && SameCaller(calls, pushed[i], pushed[j]) ==> pushed[i].serial < pushed[j].serial)
  }

  ghost predicate AheadInv(calls: seq<Call>, pushed: seq<LogData>, thread: Thread, t: nat) {
    thread.Holding? || thread.Passed? ==>
      forall d :: d in pushed && d.serial < |calls| && calls[d.serial].t == t ==> d.serial < thread.d.serial
  }

  ghost predicate ContentInv(m: Manager) {
    (forall t :: 0 <= t < |m.threads| ==> HandInv(m.calls, m.threads[t], t) && AheadInv(m.calls, m.log.pushed, m.threads[t], t)) &&
    (forall d :: d in m.queue ==> IsCall(m.calls, d)) &&
    PushedInv(m.calls, m.log.pushed)
  }

  lemma CallsGrow(m: Manager, c: Call)
    requires ContentInv(m)
    ensures ContentInv(m.(calls := m.calls + [c]))
  {
    var calls := m.calls + [c];
    forall t | 0 <= t < |m.threads| ensures HandInv(calls, m.threads[t], t) && AheadInv(calls, m.log.pushed, m.threads[t], t) {
      assert HandInv(m.calls, m.threads[t], t) && AheadInv(m.calls, m.log.pushed, m.threads[t], t);
      forall d | d in m.log.pushed ensures IsCall(m.calls, d) {}
    }
    forall d | d in m.queue ensures IsCall(calls, d) {
      assert IsCall(m.calls, d);
    }
    forall d | d in m.log.pushed ensures IsCall(calls, d) {
      assert IsCall(m.calls, d);
    }
    forall i, j | 0 <= i < j < |m.log.pushed| && SameCaller(calls, m.log.pushed[i], m.log.pushed[j])
      ensures m.log.pushed[i].serial < m.log.pushed[j].serial {
      assert m.log.pushed[i] in m.log.pushed && m.log.pushed[j] in m.log.pushed;
      assert IsCall(m.calls, m.log.pushed[i]) && IsCall(m.calls, m.log.pushed[j]);
    }
  }

  /** One thread moves on with the entry in its hand, or lets go of it. */
  lemma MoveKeepsContent(m: Manager, t: nat, n: Manager)
    requires ContentInv(m) && t < |m.threads| && |n.threads| > t && n.threads == m.threads[t := n.threads[t]]
    requires n.calls == m.calls && n.queue == m.queue && n.log.pushed == m.log.pushed
    requires HandInv(m.calls, n.threads[t], t) && AheadInv(m.calls, m.log.pushed, n.threads[t], t)
    ensures ContentInv(n)
  {
    hide HandInv, AheadInv, PushedInv, IsCall;
  }

  lemma MakeKeepsContent(m: Manager, t: nat, id: int, body: Body, reuse: bool)
    requires ContentInv(m) && t < |m.threads| && m.threads[t] == Idle && (reuse ==> m.free != [])
    ensures ContentInv(DoMake(m, t, id, body, reuse))
  {
    var c := Call(t, id, body);
    var a, n := m.(calls := m.calls + [c]), DoMake(m, t, id, body, reuse);
    CallsGrow(m, c);
    assert a.calls[|m.calls|] == c;
    forall d | d in m.log.pushed ensures d.serial < |m.calls| {
      assert IsCall(m.calls, d);
    }
    assert HandInv(a.calls, n.threads[t], t) && AheadInv(a.calls, a.log.pushed, n.threads[t], t);
    hide ContentInv, HandInv, AheadInv;
    MoveKeepsContent(a, t, n);
  }

  lemma PushedGrows(calls: seq<Call>, pushed: seq<LogData>, kept: LogData, t: nat)
    requires PushedInv(calls, pushed) && IsOwn(calls, kept, t)
    requires forall d :: d in pushed && d.serial < |calls| && calls[d.serial].t == t ==> d.serial < kept.serial
    ensures PushedInv(calls, pushed + [kept])
  {
  }

  lemma OthersStayAhead(m: Manager, pushed: seq<LogData>, t: nat, u: nat)
    requires t < |m.threads| && u < |m.threads| && u != t && AheadInv(m.calls, m.log.pushed, m.threads[u], u)
    requires pushed == m.log.pushed || exists kept :: pushed == m.log.pushed + [kept] && IsOwn(m.calls, kept, t)
    ensures AheadInv(m.calls, pushed, m.threads[u], u)
  {
  }

  lemma EnqueueKeepsContent(m: Manager, t: nat)
    requires ContentInv(m) && t < |m.threads| && (m.threads[t].Passed? || m.threads[t].Holding?)
    ensures ContentInv(DoEnqueue(m, t))
  {
    var n, d := DoEnqueue(m, t), m.threads[t].d;
    EnqueueKeepsEntry(m, t);
    assert HandInv(m.calls, m.threads[t], t) && AheadInv(m.calls, m.log.pushed, m.threads[t], t);
    hide DoEnqueue;
    var kept := n.queue[|m.queue|];
    assert IsOwn(m.calls, kept, t);
    assert n.queue == m.queue + [kept];
    PushedGrows(m.calls, m.log.pushed, kept, t);
    hide PushedInv;
    forall u | 0 <= u < |n.threads| ensures HandInv(n.calls, n.threads[u], u) && AheadInv(n.calls, n.log.pushed, n.threads[u], u) {
      if u != t {
        assert HandInv(m.calls, m.threads[u], u) && AheadInv(m.calls, m.log.pushed, m.threads[u], u);
        OthersStayAhead(m, n.log.pushed, t, u);
      }
    }
  }

  lemma PopKeepsContent(m: Manager)
    requires ContentInv(m) && |m.threads| > 0 && m.queue != []
    ensures ContentInv(DoPop(m))
  {
    assert IsCall(m.calls, m.queue[0]);
    hide PushedInv, IsCall;
  }

  lemma StepKeepsContent(m: Manager, s: Step)
    requires WellFormed(m) && Enabled(m, s) && ContentInv(m)
    ensures ContentInv(Next(m, s))
  {
    var n := Next(m, s);
    StepShape(m, s);
    assert s.Filter? ==> m.threads[s.t].Holding?;
    assert s.SizeCheck? ==> m.threads[s.t].Discarding?;
    hide Fold, Effective, HasRecord, TurnsAway, Apply, DoMake, DoFilter, DoEnqueue, DoSizeCheck, DoReturn, DoPop, DoProcess, DoExit, DoChangeNow;
    hide ContentInv, SameEntry;
    match s
    case Make(t, id, level, text, reuse) => MakeKeepsContent(m, t, id, General(level, text, DEFAULT_SETTINGS), reuse);
    case MakeChange(t, id, change, reuse) => MakeKeepsContent(m, t, id, Hot(change), reuse);
    case Enqueue(t) => EnqueueKeepsContent(m, t);
    case Pop => PopKeepsContent(m);
    case Filter(t) => HandStaysContent(m, t, n);
    case SizeCheck(t) => HandStaysContent(m, t, n);
    case Return(t) => HandStaysContent(m, t, n);
    case Process => HandStaysContent(m, 0, n);
    case _ => hide Next; NothingKeepsContent(m, n);
  }

  /** The entry stays where it is, or leaves for the free list or nowhere. */
  lemma HandStaysContent(m: Manager, t: nat, n: Manager)
    requires ContentInv(m) && (Keeps(m, n, t) || (LetsGo(m, n, t) && n.queue == m.queue))
    requires n.threads[t].Holding? || n.threads[t].Passed? ==> m.threads[t].Holding? || m.threads[t].Passed?
    requires !n.threads[t].Got?
    ensures ContentInv(n)
  {
    assert HandInv(m.calls, m.threads[t], t) && AheadInv(m.calls, m.log.pushed, m.threads[t], t);
    hide ContentInv, PushedInv;
    MoveKeepsContent(m, t, n);
  }

  lemma NothingKeepsContent(m: Manager, n: Manager)
    requires ContentInv(m) && MovesNothing(m, n)
    ensures ContentInv(n)
  {
  }

  lemma {:induction false} RunsKeepContent(m: Manager, steps: seq<Step>)
    requires WellFormed(m) && Runs(m, steps) && ContentInv(m)
    ensures ContentInv(After(m, steps))
    decreases |steps|
  {
    if steps != [] {
      hide ContentInv, Enabled, Next, WellFormed;
      NextIsWellFormed(m, steps[0]);
      StepKeepsContent(m, steps[0]);
      RunsKeepContent(Next(m, steps[0]), steps[1..]);
    }
  }

  /** Made by different calls, and if by one caller then in this order. */
  ghost predicate InOrder(calls: seq<Call>, a: LogData, b: LogData) {
    a.serial != b.serial && (SameCaller(calls, a, b) ==> a.serial < b.serial)
  }

  /**
   On every run: each record pushed has the logger, level and text that its caller gave to makeLogData, each entry
   waiting in the queue - a change included - is as its caller made it, and the records of one caller are pushed
   once each and in the order of its calls.  PromisesAreKept carries this from the pushed to the popped.
   */
  lemma RecordsAreTheirCalls(clients: nat, steps: seq<Step>)
    requires Runs(Init(clients), steps)
    ensures var m := After(Init(clients), steps);
      (forall d :: d in m.queue || d in m.log.pushed ==> IsCall(m.calls, d)) &&
      (forall i, j :: 0 <= i < j < |m.log.pushed| ==> InOrder(m.calls, m.log.pushed[i], m.log.pushed[j]))
  {
    assert ContentInv(Init(clients));
    hide Init, IsCall;
    RunsKeepContent(Init(clients), steps);
    var m := After(Init(clients), steps);
    forall i, j | 0 <= i < j < |m.log.pushed| ensures InOrder(m.calls, m.log.pushed[i], m.log.pushed[j]) {
      SerialInRange(m.calls, m.log.pushed, i);
      SerialInRange(m.calls, m.log.pushed, j);
    }
  }

  lemma SerialInRange(calls: seq<Call>, pushed: seq<LogData>, i: nat)
    requires PushedInv(calls, pushed) && i < |pushed|
    ensures pushed[i].serial < |calls|
  {
    assert pushed[i] in pushed;
  }

  function CallOf(s: Step): seq<Call> {
    match s
    case Make(t, id, level, text, _) => [Call(t, id, General(level, text, DEFAULT_SETTINGS))]
    case MakeChange(t, id, change, _) => [Call(t, id, Hot(change))]
    case _ => []
  }

  function CallsOf(steps: seq<Step>): seq<Call> {
    if steps == [] then [] else CallOf(steps[0]) + CallsOf(steps[1..])
  }

  /** The calls themselves are what the steps of the run say: one for each making, with what it was given. */
  lemma {:induction false} CallsAreOfTheSteps(m: Manager, steps: seq<Step>)
    requires WellFormed(m) && Runs(m, steps)
    ensures After(m, steps).calls == m.calls + CallsOf(steps)
    decreases |steps|
  {
    hide Enabled, Next, WellFormed, CallOf;
    if steps != [] {
      FirstStep(m, steps);
      hide Runs, After;
      StepMakesCall(m, steps[0]);
      CallsAreOfTheSteps(Next(m, steps[0]), steps[1..]);
      var c, rest := CallOf(steps[0]), CallsOf(steps[1..]);
      assert (m.calls + c) + rest == m.calls + (c + rest);
    } else {
      assert m.calls + [] == m.calls;
    }
  }

  lemma StepMakesCall(m: Manager, s: Step)
    requires WellFormed(m) && Enabled(m, s)
    ensures Next(m, s).calls == m.calls + CallOf(s)
  {
    hide Fold, Effective, HasRecord, TurnsAway, Apply;
  }
}
