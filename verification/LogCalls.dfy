/**
 Whole calls of the log manager, carried out without interruption: each is a run of the machine, so what holds
 over all runs holds across it; and what the inner loop of run does to a queue it is left alone with.
 */
module LogCalls {
  import opened LogQueues

  const LOG_BUF_SIZE: nat := 8 * 1024

  // ---- calls as sequences of steps ----

  function Freed(m: Manager, t: nat): Manager
    requires t < |m.threads| && m.threads[t].Discarding?
  {
    var n := DoSizeCheck(m, t);
    if n.threads[t].Returning? then DoReturn(n, t) else n
  }

  function Pushed(m: Manager, t: nat): Manager
    requires t < |m.threads| && |m.loggers| > m.lastId
    requires m.threads[t].Holding? && m.threads[t].d.body.General?
  {
    var n := DoFilter(m, t);
    if n.threads[t].Passed? then DoEnqueue(n, t) else Freed(n, t)
  }

  /** One round of the inner loop of run. */
  function Round(m: Manager): Manager
    requires |m.threads| > 0 && m.threads[0] == Idle && |m.loggers| > m.lastId && m.queue != []
  {
    Freed(DoProcess(DoPop(m)), 0)
  }

  /** The inner loop of run, left alone until the queue is empty. */
  function Drained(m: Manager): (n: Manager)
    requires |m.threads| > 0 && m.threads[0] == Idle && |m.loggers| > m.lastId
    decreases |m.queue|
  {
    if m.queue == [] then m else Drained(Round(m))
  }

  function FreeSteps(m: Manager, t: nat): seq<Step>
    requires t < |m.threads| && m.threads[t].Discarding?
  {
    if |m.free| < FREE_LIMIT then [SizeCheck(t), Return(t)] else [SizeCheck(t)]
  }

  lemma FreeIsARun(m: Manager, t: nat)
    requires WellFormed(m) && t < |m.threads| && m.threads[t].Discarding?
    ensures WellFormed(Freed(m, t)) && Freed(m, t).threads == m.threads[t := Idle]
    ensures Runs(m, FreeSteps(m, t)) && After(m, FreeSteps(m, t)) == Freed(m, t)
  {
    hide Runs, After;
    var n := DoSizeCheck(m, t);
    NextIsWellFormed(m, SizeCheck(t));
    RunOfOne(m, SizeCheck(t));
    if |m.free| < FREE_LIMIT {
      RunOfOne(n, Return(t));
      RunsAppend(m, [SizeCheck(t)], [Return(t)]);
      assert [SizeCheck(t)] + [Return(t)] == FreeSteps(m, t);
    }
  }

  function PushSteps(m: Manager, t: nat): seq<Step>
    requires t < |m.threads| && |m.loggers| > m.lastId
    requires m.threads[t].Holding? && m.threads[t].d.body.General?
  {
    var n := DoFilter(m, t);
    [Filter(t)] + if n.threads[t].Passed? then [Enqueue(t)] else FreeSteps(n, t)
  }

  /** What a call of pushLog comes to: a record let through by both filters is queued, any other leaves no trace there. */
  lemma PushFilters(m: Manager, t: nat)
    requires WellFormed(m) && t < |m.threads| && m.threads[t].Holding? && m.threads[t].d.body.General?
    ensures var n, d := Pushed(m, t), m.threads[t].d;
      n.threads == m.threads[t := Idle] && n.loggers == m.loggers &&
      if 0 <= d.id <= m.lastId && m.running && m.loggers[d.id].enable && m.loggers[d.id].level <= d.body.level then
        |n.queue| == |m.queue| + 1 && n.queue[..|m.queue|] == m.queue && SameEntry(d, n.queue[|m.queue|])
      else n.queue == m.queue && n.log == m.log
  {
    var f := DoFilter(m, t);
    if f.threads[t].Passed? {
      EnqueueKeepsEntry(f, t);
    }
    hide DoEnqueue;
  }

  lemma RunOfOne(m: Manager, s: Step)
    requires WellFormed(m) && Enabled(m, s)
    ensures Runs(m, [s]) && After(m, [s]) == Next(m, s)
  {
    hide Enabled, Next;
    NextIsWellFormed(m, s);
    assert [s][1..] == [];
  }

  /** A call of pushLog is a run of the machine, so what holds over all runs holds across it. */
  lemma PushIsARun(m: Manager, t: nat)
    requires WellFormed(m) && t < |m.threads| && m.threads[t].Holding? && m.threads[t].d.body.General?
    ensures Runs(m, PushSteps(m, t)) && After(m, PushSteps(m, t)) == Pushed(m, t)
  {
    hide Fold, Effective, Runs, After;
    var n := DoFilter(m, t);
    NextIsWellFormed(m, Filter(t));
    RunOfOne(m, Filter(t));
    if n.threads[t].Passed? {
      RunOfOne(n, Enqueue(t));
      RunsAppend(m, [Filter(t)], [Enqueue(t)]);
    } else {
      FreeIsARun(n, t);
      RunsAppend(m, [Filter(t)], FreeSteps(n, t));
    }
  }

  function DrainSteps(m: Manager): seq<Step>
    requires |m.threads| > 0 && m.threads[0] == Idle && |m.loggers| > m.lastId
    decreases |m.queue|
  {
    if m.queue == [] then [] else [Pop, Process] + FreeSteps(DoProcess(DoPop(m)), 0) + DrainSteps(Round(m))
  }

  lemma RoundIsARun(m: Manager)
    requires WellFormed(m) && m.threads[0] == Idle && !m.exited && m.queue != []
    ensures WellFormed(Round(m)) && Round(m).threads[0] == Idle && !Round(m).exited && Round(m).queue == m.queue[1..]
    ensures var steps := [Pop, Process] + FreeSteps(DoProcess(DoPop(m)), 0);
      Runs(m, steps) && After(m, steps) == Round(m)
  {
    hide Runs, After;
    var p := DoPop(m);
    NextIsWellFormed(m, Pop);
    NextIsWellFormed(p, Process);
    RunOfOne(m, Pop);
    RunOfOne(p, Process);
    RunsAppend(m, [Pop], [Process]);
    assert [Pop] + [Process] == [Pop, Process];
    FreeIsARun(DoProcess(p), 0);
    RunsAppend(m, [Pop, Process], FreeSteps(DoProcess(p), 0));
  }

  lemma {:induction false} DrainIsARun(m: Manager)
    requires WellFormed(m) && m.threads[0] == Idle && !m.exited
    ensures Runs(m, DrainSteps(m)) && After(m, DrainSteps(m)) == Drained(m) && Drained(m).queue == []
    decreases |m.queue|
  {
    hide Round;
    if m.queue == [] {
      NoSteps(m);
    } else {
      hide Runs, After, WellFormed;
      RoundIsARun(m);
      DrainIsARun(Round(m));
      RunsAppend(m, [Pop, Process] + FreeSteps(DoProcess(DoPop(m)), 0), DrainSteps(Round(m)));
    }
  }

  function TextOf(change: Change): string {
    match change
    case SetName(text) => text
    case SetPath(text) => text
    case _ => ""
  }

  function HotChanged(m: Manager, t: nat, id: int, change: Change): Manager
    requires |m.loggers| > m.lastId && t < |m.threads| && m.threads[t] == Idle
  {
    if !InRange(m, id) || |TextOf(change)| >= LOG_BUF_SIZE then m
    else if !m.running then DoChangeNow(m, id, change)
    else DoEnqueue(DoMake(m, t, id, Hot(change), m.free != []), t)
  }

  function HotSteps(m: Manager, t: nat, id: int, change: Change): seq<Step> {
    if !InRange(m, id) || |TextOf(change)| >= LOG_BUF_SIZE then []
    else if !m.running then [ChangeNow(id, change)]
    else [MakeChange(t, id, change, m.free != []), Enqueue(t)]
  }

  /** A name or path that does not fit the buffer of a queue entry is refused, whether running or not; a shorter one is not. */
  lemma LongTextsAreRefused(m: Manager, t: nat, id: int, text: string, change: Change)
    requires WellFormed(m) && t < |m.threads| && m.threads[t] == Idle && InRange(m, id)
    requires change == SetName(text) || change == SetPath(text)
    ensures |text| >= 8192 ==> HotChanged(m, t, id, change) == m
    ensures |text| < 8192 && m.running ==> |HotChanged(m, t, id, change).queue| == |m.queue| + 1
    ensures |text| < 8192 && !m.running ==>
      |HotChanged(m, t, id, change).loggers| == |m.loggers| && Takes(HotChanged(m, t, id, change).loggers[id], change)
  {
    ApplySetsOne(m.loggers[id], change);
    hide Apply, HasRecord, TurnsAway, Effective;
  }

  lemma HotChangedAtOnce(m: Manager, t: nat, id: int, change: Change)
    requires WellFormed(m) && t < |m.threads| && m.threads[t] == Idle && InRange(m, id) && !m.running
    requires |TextOf(change)| < LOG_BUF_SIZE
    ensures HotSteps(m, t, id, change) == [ChangeNow(id, change)]
    ensures Enabled(m, ChangeNow(id, change)) && Next(m, ChangeNow(id, change)) == HotChanged(m, t, id, change)
  {
    hide DoChangeNow;
  }

  lemma HotChangedQueued(m: Manager, t: nat, id: int, change: Change)
    requires WellFormed(m) && t < |m.threads| && m.threads[t] == Idle && InRange(m, id) && m.running
    requires |TextOf(change)| < LOG_BUF_SIZE && t < |DoMake(m, t, id, Hot(change), m.free != []).threads|
    requires DoMake(m, t, id, Hot(change), m.free != []).threads[t].Holding?
    ensures HotSteps(m, t, id, change) == [MakeChange(t, id, change, m.free != []), Enqueue(t)]
    ensures HotChanged(m, t, id, change) == DoEnqueue(DoMake(m, t, id, Hot(change), m.free != []), t)
  {
    hide DoMake, DoEnqueue;
  }

  lemma QueuedChangeIsARun(m: Manager, t: nat, id: int, change: Change)
    requires WellFormed(m) && t < |m.threads| && m.threads[t] == Idle && InRange(m, id) && m.running
    requires |TextOf(change)| < LOG_BUF_SIZE
    ensures var steps := HotSteps(m, t, id, change);
      Runs(m, steps) && After(m, steps) == HotChanged(m, t, id, change)
  {
    hide *;
    var s := MakeChange(t, id, change, m.free != []);
    QueueingLooks(m, t, id, change);
    var n := Next(m, s);
    RunOfOne(m, s);
    RunOfOne(n, Enqueue(t));
    RunsAppend(m, [s], [Enqueue(t)]);
    assert [s] + [Enqueue(t)] == [s, Enqueue(t)];
    HotChangedQueued(m, t, id, change);
  }

  /** So is a call of hotChange. */
  lemma HotChangeIsARun(m: Manager, t: nat, id: int, change: Change)
    requires WellFormed(m) && t < |m.threads| && m.threads[t] == Idle
    ensures var steps := HotSteps(m, t, id, change);
      Runs(m, steps) && After(m, steps) == HotChanged(m, t, id, change)
  {
    if !InRange(m, id) || |TextOf(change)| >= LOG_BUF_SIZE {
      hide Runs, After;
      NoSteps(m);
    } else if m.running {
      hide *;
      QueuedChangeIsARun(m, t, id, change);
    } else {
      hide *;
      HotChangedAtOnce(m, t, id, change);
      RunOfOne(m, ChangeNow(id, change));
    }
  }

  lemma QueueingLooks(m: Manager, t: nat, id: int, change: Change)
    requires WellFormed(m) && t < |m.threads| && m.threads[t] == Idle && InRange(m, id) && m.running
    ensures var s := MakeChange(t, id, change, m.free != []);
      Enabled(m, s) && Enabled(Next(m, s), Enqueue(t)) && WellFormed(Next(m, s)) &&
      t < |DoMake(m, t, id, Hot(change), m.free != []).threads| &&
      DoMake(m, t, id, Hot(change), m.free != []).threads[t].Holding? &&
      Next(Next(m, s), Enqueue(t)) == DoEnqueue(DoMake(m, t, id, Hot(change), m.free != []), t)
  {
    hide DoEnqueue;
    NextIsWellFormed(m, MakeChange(t, id, change, m.free != []));
  }

  /** enableLogger */
  function EnableCalled(m: Manager, t: nat, id: int, enable: bool): Manager
    requires |m.loggers| > m.lastId && t < |m.threads| && m.threads[t] == Idle
  {
    if !InRange(m, id) then m
    else if enable then SetLogger(m, id, m.loggers[id].(enable := true))
    else HotChanged(m, t, id, SetEnable(false))
  }

  /** setLoggerLevel */
  function LevelCalled(m: Manager, t: nat, id: int, level: int): Manager
    requires |m.loggers| > m.lastId && t < |m.threads| && m.threads[t] == Idle
  {
    if !InRange(m, id) then m
    else if level <= m.loggers[id].level then SetLogger(m, id, m.loggers[id].(level := level))
    else HotChanged(m, t, id, SetLevel(level))
  }

  /** And calls of the two setters that may take effect at once. */
  lemma EnableIsARun(m: Manager, t: nat, id: int, enable: bool)
    requires WellFormed(m) && t < |m.threads| && m.threads[t] == Idle
    ensures var steps := if !InRange(m, id) then [] else if enable then [EnableNow(id)] else HotSteps(m, t, id, SetEnable(false));
      Runs(m, steps) && After(m, steps) == EnableCalled(m, t, id, enable)
  {
    hide Runs, After, HotChanged, HotSteps;
    if !InRange(m, id) {
      NoSteps(m);
    } else if enable {
      RunOfOne(m, EnableNow(id));
    } else {
      HotChangeIsARun(m, t, id, SetEnable(false));
    }
  }

  lemma LevelIsARun(m: Manager, t: nat, id: int, level: int)
    requires WellFormed(m) && t < |m.threads| && m.threads[t] == Idle
    ensures var steps :=
        if !InRange(m, id) then [] else if level <= m.loggers[id].level then [LevelNow(id, level)] else HotSteps(m, t, id, SetLevel(level));
      Runs(m, steps) && After(m, steps) == LevelCalled(m, t, id, level)
  {
    hide Runs, After, HotChanged, HotSteps;
    if !InRange(m, id) {
      NoSteps(m);
    } else if level <= m.loggers[id].level {
      RunOfOne(m, LevelNow(id, level));
    } else {
      HotChangeIsARun(m, t, id, SetLevel(level));
    }
  }

  /** A new logger is enabled and named, and is the only one to change. */
  lemma CreatedIsEnabled(m: Manager, key: string)
    requires WellFormed(m) && Enabled(m, CreateLogger(key))
    ensures var n, id := Next(m, CreateLogger(key)), m.lastId + 1;
      n.lastId == id && |n.loggers| == |m.loggers| && n.loggers[id].enable && n.loggers[id].name == key &&
      (forall i :: 0 <= i < |m.loggers| && i != id ==> n.loggers[i] == m.loggers[i]) && n.queue == m.queue && n.running == m.running
  {
  }

  /** When run returns every logger is disabled, with the rest of its settings as they were. */
  lemma ExitDisables(m: Manager, i: nat)
    requires WellFormed(m) && Enabled(m, Exit) && i < |m.loggers|
    ensures var n := Next(m, Exit);
      n.exited && |n.loggers| == |m.loggers| && n.queue == m.queue &&
      SameElsewhere(n.loggers[i], m.loggers[i], SetEnable(false)) &&
      (i <= m.lastId ==> !n.loggers[i].enable) && (i > m.lastId ==> n.loggers[i] == m.loggers[i])
  {
  }

  // ---- what a drain does ----

  /** The records of a queue with the settings each is to meet: the fold of the changes queued ahead of it. */
  function Met(queue: seq<LogData>, loggers: seq<Settings>, lastId: nat): seq<Outcome>
    requires lastId < |loggers|
  {
    if queue == [] then [] else
      var ahead, d := queue[..|queue| - 1], queue[|queue| - 1];
      Met(ahead, loggers, lastId)
      + if 0 <= d.id <= lastId && d.body.General? then [Outcome(d, Fold(ahead, d.id, loggers[d.id]))] else []
  }

  function Changed(d: LogData, loggers: seq<Settings>, lastId: nat): (after: seq<Settings>)
    requires lastId < |loggers|
    ensures |after| == |loggers| && forall i :: 0 <= i <= lastId ==> after[i] == ChangesOf(d, i, loggers[i])
    ensures forall i :: lastId < i < |loggers| ==> after[i] == loggers[i]
  {
    if 0 <= d.id <= lastId && d.body.Hot? then loggers[d.id := Apply(loggers[d.id], d.body.change)] else loggers
  }

  lemma {:induction false} MetCons(d: LogData, rest: seq<LogData>, loggers: seq<Settings>, lastId: nat)
    requires lastId < |loggers|
    ensures Met([d] + rest, loggers, lastId) == Met([d], loggers, lastId) + Met(rest, Changed(d, loggers, lastId), lastId)
  {
    if rest == [] {
      assert [d] + rest == [d];
    } else {
      var n := |rest| - 1;
      var e := rest[n];
      MetCons(d, rest[..n], loggers, lastId);
      assert ([d] + rest)[..n + 1] == [d] + rest[..n];
      if 0 <= e.id <= lastId {
        assert ([d] + rest[..n])[1..] == rest[..n];
        assert Fold([d] + rest[..n], e.id, loggers[e.id]) == Fold(rest[..n], e.id, Changed(d, loggers, lastId)[e.id]);
      }
    }
  }

  lemma FreedCases(m: Manager, t: nat)
    requires t < |m.threads| && m.threads[t].Discarding?
    ensures var n := Freed(m, t);
      n.threads == m.threads[t := Idle] && n.loggers == m.loggers && n.lastId == m.lastId && n.queue == m.queue && n.log == m.log
  {
  }

  lemma RoundCases(m: Manager)
    requires WellFormed(m) && m.threads[0] == Idle && m.queue != []
    ensures var n := Round(m);
      WellFormed(n) && |n.threads| == |m.threads| && n.threads[0] == Idle && n.queue == m.queue[1..] && n.lastId == m.lastId &&
      n.loggers == Changed(m.queue[0], m.loggers, m.lastId) &&
      n.log.popped == m.log.popped + Met([m.queue[0]], m.loggers, m.lastId) &&
      n.log.popCount == m.log.popCount + |Met([m.queue[0]], m.loggers, m.lastId)|
  {
    hide Apply, Freed;
    var d := m.queue[0];
    FreedCases(DoProcess(DoPop(m)), 0);
    assert [d][..0] == [];
    assert Met([d], m.loggers, m.lastId) == if InRange(m, d.id) && d.body.General? then [Outcome(d, m.loggers[d.id])] else [];
  }

  /** The inner loop of run: every record meets exactly the changes queued ahead of it, and every logger ends with all. */
  lemma {:induction false} DrainMeetsTheFold(m: Manager)
    requires WellFormed(m) && m.threads[0] == Idle
    ensures var n := Drained(m);
      n.queue == [] && |n.threads| == |m.threads| && n.threads[0] == Idle &&
      n.log.popped == m.log.popped + Met(m.queue, m.loggers, m.lastId) &&
      n.log.popCount == m.log.popCount + |Met(m.queue, m.loggers, m.lastId)| &&
      |n.loggers| == |m.loggers| && n.lastId == m.lastId &&
      (forall i :: 0 <= i <= m.lastId ==> n.loggers[i] == Fold(m.queue, i, m.loggers[i])) &&
      (forall i :: m.lastId < i < |m.loggers| ==> n.loggers[i] == m.loggers[i])
    decreases |m.queue|
  {
    hide Round, ChangesOf, Changed;
    if m.queue != [] {
      RoundCases(m);
      DrainMeetsTheFold(Round(m));
      MetCons(m.queue[0], m.queue[1..], m.loggers, m.lastId);
      assert [m.queue[0]] + m.queue[1..] == m.queue;
    }
  }
}
