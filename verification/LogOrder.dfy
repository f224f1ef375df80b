/**
 What a record meets: the settings in effect when it was queued still let it through when it is popped, in
 push order, and nothing accepted is left behind when the logger thread ends.
 */
module LogOrder {
  import opened LogQueues

  /** b differs from a only in letting more through. */
  ghost predicate Looser(a: Settings, b: Settings) {
    (a.enable ==> b.enable) && b.level <= a.level &&
    b.name == a.name && b.path == a.path && b.display == a.display && b.outfile == a.outfile &&
    b.monthdir == a.monthdir && b.limitsize == a.limitsize && b.reservedays == a.reservedays && b.fileLine == a.fileLine
  }

  lemma ChangeIsMonotone(d: LogData, id: int, a: Settings, b: Settings)
    requires Looser(a, b)
    ensures Looser(ChangesOf(d, id, a), ChangesOf(d, id, b))
  {
    if d.id == id && d.body.Hot? {
      ApplyIsMonotone(d.body.change, a, b);
    }
  }

  lemma ApplyIsMonotone(c: Change, a: Settings, b: Settings)
    requires Looser(a, b)
    ensures Looser(Apply(a, c), Apply(b, c))
  {
    ApplySetsOne(a, c);
    ApplySetsOne(b, c);
    hide Apply;
  }

  lemma {:induction false} FoldIsMonotone(pending: seq<LogData>, id: int, a: Settings, b: Settings)
    requires Looser(a, b)
    ensures Looser(Fold(pending, id, a), Fold(pending, id, b))
  {
    if pending != [] {
      hide Looser, ChangesOf;
      ChangeIsMonotone(pending[0], id, a, b);
      FoldIsMonotone(pending[1..], id, ChangesOf(pending[0], id, a), ChangesOf(pending[0], id, b));
    }
  }

  lemma LooserIsTransitive(a: Settings, b: Settings, c: Settings)
    requires Looser(a, b) && Looser(b, c)
    ensures Looser(a, c)
  {
  }

  // ---- the records among queue entries ----

  function Records(ds: seq<LogData>): seq<LogData> {
    if ds == [] then []
    else Records(ds[..|ds| - 1]) + if ds[|ds| - 1].body.General? then [ds[|ds| - 1]] else []
  }

  lemma RecordsSnoc(ds: seq<LogData>, d: LogData)
    ensures Records(ds + [d]) == Records(ds) + if d.body.General? then [d] else []
  {
    assert (ds + [d])[..|ds|] == ds;
  }

  lemma {:induction false} RecordsCons(d: LogData, ds: seq<LogData>)
    ensures Records([d] + ds) == (if d.body.General? then [d] else []) + Records(ds)
  {
    if ds == [] {
      assert [d] + ds == [] + [d];
      RecordsSnoc([], d);
    } else {
      assert ([d] + ds)[..|ds|] == [d] + ds[..|ds| - 1];
      RecordsCons(d, ds[..|ds| - 1]);
    }
  }

  function Popped(outcomes: seq<Outcome>): seq<LogData> {
    if outcomes == [] then [] else Popped(outcomes[..|outcomes| - 1]) + [outcomes[|outcomes| - 1].d]
  }

  lemma PoppedSnoc(outcomes: seq<Outcome>, o: Outcome)
    ensures Popped(outcomes + [o]) == Popped(outcomes) + [o.d]
  {
    assert (outcomes + [o])[..|outcomes|] == outcomes;
  }

  lemma {:induction false} PoppedAt(outcomes: seq<Outcome>, k: nat)
    requires k < |outcomes|
    ensures |Popped(outcomes)| == |outcomes| && Popped(outcomes)[k] == outcomes[k].d
  {
    if |outcomes| > 1 {
      PoppedAt(outcomes[..|outcomes| - 1], if k < |outcomes| - 1 then k else 0);
    }
  }

  // ------------------------------------------------------------------------------------------------
  // The invariants
  // ------------------------------------------------------------------------------------------------

  ghost predicate IdInv(pending: seq<LogData>, threads: seq<Thread>, lastId: nat) {
    (forall d :: d in pending ==> 0 <= d.id <= lastId) &&
    (forall t :: 0 <= t < |threads| ==> IdAt(threads[t], lastId))
  }

  ghost predicate IdAt(thread: Thread, lastId: nat) {
    thread.Passed? || (thread.Holding? && thread.d.body.Hot?) ==> 0 <= thread.d.id <= lastId
  }

  /** The record at position k will meet settings at least as loose as those it was promised. */
  ghost predicate KeptAt(pending: seq<LogData>, loggers: seq<Settings>, k: nat)
    requires k < |pending|
  {
    pending[k].body.General? && 0 <= pending[k].id < |loggers| ==>
      Looser(pending[k].body.promise, Fold(pending[..k], pending[k].id, loggers[pending[k].id]))
  }

  /** The record at position k will be accepted if the settings it was promised accept it. */
  ghost predicate AcceptedAt(pending: seq<LogData>, loggers: seq<Settings>, k: nat)
    requires k < |pending|
  {
    var d := pending[k];
    d.body.General? && 0 <= d.id < |loggers| && Accepts(d.body.promise, d.body.level) ==>
      Accepts(Fold(pending[..k], d.id, loggers[d.id]), d.body.level)
  }

  ghost predicate AcceptInv(pending: seq<LogData>, loggers: seq<Settings>) {
    forall k :: 0 <= k < |pending| ==> AcceptedAt(pending, loggers, k)
  }

  ghost predicate PromiseInv(pending: seq<LogData>, loggers: seq<Settings>) {
    forall k :: 0 <= k < |pending| ==> KeptAt(pending, loggers, k)
  }

  ghost predicate MetInv(popped: seq<Outcome>) {
    forall o :: o in popped ==> o.d.body.General? && Looser(o.d.body.promise, o.met)
  }

  ghost predicate MetAccepts(popped: seq<Outcome>) {
    forall o :: o in popped ==>
      o.d.body.General? && (Accepts(o.d.body.promise, o.d.body.level) ==> Accepts(o.met, o.d.body.level))
  }

  ghost predicate FifoInv(pending: seq<LogData>, log: History) {
    log.pushed == Popped(log.popped) + Records(pending) &&
    log.pushCount == |log.pushed| && log.popCount == |log.popped|
  }

  ghost predicate ExitInv(m: Manager)
    requires WellFormed(m)
  {
    m.exited ==>
      !m.running && !m.threads[0].Got? && Popped(m.log.popped) == m.log.atExit &&
      (m.log.cleanExit ==> Records(m.queue) == [] && NonePassed(m.threads))
  }

  ghost predicate NonePassed(threads: seq<Thread>) {
    forall t :: 0 <= t < |threads| ==> !threads[t].Passed?
  }

  ghost predicate OrderInv(m: Manager) {
    WellFormed(m) && IdInv(Pending(m), m.threads, m.lastId) && FifoInv(Pending(m), m.log) && ExitInv(m) &&
    (!m.log.changed ==> PromiseInv(Pending(m), m.loggers) && MetInv(m.log.popped)) &&
    (!m.log.overtaken ==> AcceptInv(Pending(m), m.loggers) && MetAccepts(m.log.popped))
  }

  /** Moving one thread on, away from the queue and the settings. */
  lemma MoveKeepsOrder(m: Manager, t: nat, phase: Thread, n: Manager)
    requires OrderInv(m) && t < |m.threads| && !m.threads[t].Got? && !phase.Got? && IdAt(phase, m.lastId)
    requires phase.Passed? ==> m.running
    requires n == m.(threads := m.threads[t := phase], free := n.free, made := n.made, deleted := n.deleted, calls := n.calls)
    ensures OrderInv(n)
  {
    assert Pending(n) == Pending(m);
    hide Records, Popped, PromiseInv, MetInv, AcceptInv, MetAccepts, FifoInv;
    assert IdInv(Pending(n), n.threads, n.lastId) by { hide ExitInv; }
    hide IdInv;
  }

  lemma StopKeepsOrder(m: Manager)
    requires OrderInv(m)
    ensures OrderInv(m.(running := false))
  {
    assert Pending(m.(running := false)) == Pending(m);
    hide Records, Popped, PromiseInv, MetInv, AcceptInv, MetAccepts, FifoInv, IdInv;
  }

  lemma MakesKeepOrder(m: Manager, s: Step)
    requires OrderInv(m) && Enabled(m, s) && (s.Make? || s.MakeChange?)
    ensures OrderInv(Next(m, s))
  {
    assert WellFormed(m);
    hide OrderInv, IdInv, FifoInv, ExitInv, PromiseInv, MetInv, AcceptInv, MetAccepts;
    MoveKeepsOrder(m, s.t, Next(m, s).threads[s.t], Next(m, s));
  }

  lemma HandsKeepOrder(m: Manager, s: Step)
    requires OrderInv(m) && Enabled(m, s) && (s.Filter? || s.SizeCheck? || s.Return?)
    ensures OrderInv(Next(m, s))
  {
    assert WellFormed(m);
    hide OrderInv, IdInv, FifoInv, ExitInv, PromiseInv, MetInv, AcceptInv, MetAccepts;
    MoveKeepsOrder(m, s.t, Next(m, s).threads[s.t], Next(m, s));
  }

  lemma ThreadStepsKeepOrder(m: Manager, s: Step)
    requires OrderInv(m) && Enabled(m, s)
    requires s.Make? || s.MakeChange? || s.Filter? || s.SizeCheck? || s.Return? || s.Stop?
    ensures OrderInv(Next(m, s))
  {
    assert WellFormed(m);
    hide OrderInv, Enabled;
    if s.Stop? {
      StopKeepsOrder(m);
    } else if s.Make? || s.MakeChange? {
      hide Next;
      MakesKeepOrder(m, s);
    } else {
      hide Next;
      HandsKeepOrder(m, s);
    }
  }

  lemma EnqueueKeepsPromises(p: seq<LogData>, loggers: seq<Settings>, kept: LogData)
    requires PromiseInv(p, loggers)
    requires kept.body.General? && 0 <= kept.id < |loggers| ==> kept.body.promise == Fold(p, kept.id, loggers[kept.id])
    ensures PromiseInv(p + [kept], loggers)
  {
    var p' := p + [kept];
    forall k | 0 <= k < |p'| ensures KeptAt(p', loggers, k) {
      if k < |p| {
        assert KeptAt(p, loggers, k);
        assert p'[..k] == p[..k];
      } else {
        assert p'[..k] == p;
      }
    }
  }

  lemma EnqueueKeepsAccepted(p: seq<LogData>, loggers: seq<Settings>, kept: LogData)
    requires AcceptInv(p, loggers)
    requires kept.body.General? && 0 <= kept.id < |loggers| ==> kept.body.promise == Fold(p, kept.id, loggers[kept.id])
    ensures AcceptInv(p + [kept], loggers)
  {
    var p' := p + [kept];
    forall k | 0 <= k < |p'| ensures AcceptedAt(p', loggers, k) {
      if k < |p| {
        assert AcceptedAt(p, loggers, k);
        assert p'[..k] == p[..k];
      } else {
        assert p'[..k] == p;
      }
    }
  }

  lemma EnqueueKeepsFifo(p: seq<LogData>, log: History, after: History, kept: LogData)
    requires FifoInv(p, log)
    requires after == if kept.body.Hot? then log else log.(pushed := log.pushed + [kept], pushCount := log.pushCount + 1)
    ensures FifoInv(p + [kept], after)
  {
    RecordsSnoc(p, kept);
    var a, b := Popped(log.popped), Records(p);
    assert a + (b + [kept]) == (a + b) + [kept];
    assert a + (b + []) == a + b;
  }

  /** What DoEnqueue does, entry by entry. */
  lemma EnqueueCases(m: Manager, t: nat)
    requires OrderInv(m) && Enabled(m, Enqueue(t))
    ensures var n := Next(m, Enqueue(t));
      |n.queue| == |m.queue| + 1 &&
      var kept := n.queue[|m.queue|];
      n == m.(threads := m.threads[t := Idle], queue := m.queue + [kept], log := n.log) &&
      0 <= kept.id <= m.lastId && (kept.body.Hot? <==> m.threads[t].d.body.Hot?) &&
      n.log == (if kept.body.Hot? then m.log else m.log.(pushed := m.log.pushed + [kept], pushCount := m.log.pushCount + 1)) &&
      (kept.body.General? ==> kept.body.promise == Fold(Pending(m), kept.id, m.loggers[kept.id]) && m.threads[t].Passed?)
  {
    assert IdAt(m.threads[t], m.lastId);
    hide FifoInv, ExitInv, PromiseInv, MetInv, AcceptInv, MetAccepts, Fold;
  }

  lemma EnqueueKeepsIds(p: seq<LogData>, threads: seq<Thread>, lastId: nat, t: nat, kept: LogData)
    requires IdInv(p, threads, lastId) && t < |threads| && 0 <= kept.id <= lastId
    ensures IdInv(p + [kept], threads[t := Idle], lastId)
  {
  }

  lemma EnqueueKeepsExit(m: Manager, t: nat, n: Manager, kept: LogData)
    requires WellFormed(m) && ExitInv(m) && t < |m.threads| && WellFormed(n)
    requires n == m.(threads := m.threads[t := Idle], queue := m.queue + [kept], log := n.log)
    requires n.log == m.log.(pushed := n.log.pushed, pushCount := n.log.pushCount)
    requires kept.body.General? ==> m.threads[t].Passed?
    ensures ExitInv(n)
  {
    RecordsSnoc(m.queue, kept);
  }

  lemma EnqueueKeepsOrder(m: Manager, t: nat)
    requires OrderInv(m) && Enabled(m, Enqueue(t))
    ensures OrderInv(Next(m, Enqueue(t)))
  {
    hide Next, Fold, FifoInv, ExitInv, PromiseInv, MetInv, AcceptInv, MetAccepts, IdInv;
    var n := Next(m, Enqueue(t));
    EnqueueCases(m, t);
    NextIsWellFormed(m, Enqueue(t));
    var kept := n.queue[|m.queue|];
    assert Pending(n) == Pending(m) + [kept] by { EnqueueLeavesHand(m, t); }
    EnqueueKeepsFifo(Pending(m), m.log, n.log, kept);
    EnqueueKeepsIds(Pending(m), m.threads, m.lastId, t, kept);
    EnqueueKeepsExit(m, t, n, kept);
    if !m.log.changed {
      EnqueueKeepsPromises(Pending(m), m.loggers, kept);
    }
    if !m.log.overtaken {
      EnqueueKeepsAccepted(Pending(m), m.loggers, kept);
    }
  }

  lemma EnqueueLeavesHand(m: Manager, t: nat)
    requires WellFormed(m) && Enabled(m, Enqueue(t))
    ensures var n := Next(m, Enqueue(t)); |n.queue| > |m.queue| && Pending(n) == Pending(m) + [n.queue[|m.queue|]]
  {
  }

  lemma LoosenKeepsPromises(p: seq<LogData>, loggers: seq<Settings>, id: int, s: Settings)
    requires PromiseInv(p, loggers) && 0 <= id < |loggers| && Looser(loggers[id], s)
    ensures PromiseInv(p, loggers[id := s])
  {
    var after := loggers[id := s];
    forall k | 0 <= k < |p| ensures KeptAt(p, after, k) {
      assert KeptAt(p, loggers, k);
      if p[k].id == id && p[k].body.General? {
        FoldIsMonotone(p[..k], id, loggers[id], s);
        LooserIsTransitive(p[k].body.promise, Fold(p[..k], id, loggers[id]), Fold(p[..k], id, s));
      }
    }
  }

  lemma LoosenKeepsAccepted(p: seq<LogData>, loggers: seq<Settings>, id: int, s: Settings)
    requires AcceptInv(p, loggers) && 0 <= id < |loggers| && Looser(loggers[id], s)
    ensures AcceptInv(p, loggers[id := s])
  {
    var after := loggers[id := s];
    forall k | 0 <= k < |p| ensures AcceptedAt(p, after, k) {
      assert AcceptedAt(p, loggers, k);
      if p[k].id == id && p[k].body.General? {
        FoldIsMonotone(p[..k], id, loggers[id], s);
      }
    }
  }

  lemma LoosenKeepsOrder(m: Manager, id: int, s: Settings)
    requires OrderInv(m) && InRange(m, id) && Looser(m.loggers[id], s)
    ensures OrderInv(SetLogger(m, id, s))
  {
    hide IdInv, FifoInv, PromiseInv, AcceptInv, Looser;
    if !m.log.changed {
      LoosenKeepsPromises(Pending(m), m.loggers, id, s);
    }
    if !m.log.overtaken {
      LoosenKeepsAccepted(Pending(m), m.loggers, id, s);
    }
  }

  /** Settings of loggers that do not exist yet are nobody's promise. */
  lemma OutsideKeepsPromises(p: seq<LogData>, loggers: seq<Settings>, lastId: nat, after: seq<Settings>)
    requires forall d :: d in p ==> 0 <= d.id <= lastId
    requires lastId < |loggers| == |after| && forall i :: 0 <= i <= lastId ==> after[i] == loggers[i]
    ensures PromiseInv(p, loggers) ==> PromiseInv(p, after)
    ensures AcceptInv(p, loggers) ==> AcceptInv(p, after)
  {
    hide Looser, Accepts, Fold;
    forall k | 0 <= k < |p| && PromiseInv(p, loggers) ensures KeptAt(p, after, k) {
      assert p[k] in p && KeptAt(p, loggers, k);
    }
    forall k | 0 <= k < |p| && AcceptInv(p, loggers) ensures AcceptedAt(p, after, k) {
      assert p[k] in p && AcceptedAt(p, loggers, k);
    }
  }

  lemma IdsGrow(p: seq<LogData>, threads: seq<Thread>, lastId: nat)
    requires IdInv(p, threads, lastId)
    ensures IdInv(p, threads, lastId + 1) && forall d :: d in p ==> 0 <= d.id <= lastId
  {
  }

  lemma CreateKeepsOrder(m: Manager, key: string)
    requires OrderInv(m) && Enabled(m, CreateLogger(key))
    ensures OrderInv(Next(m, CreateLogger(key)))
  {
    hide Records, Popped, IdInv, FifoInv, MetInv, MetAccepts, PromiseInv, AcceptInv;
    var n, p := Next(m, CreateLogger(key)), Pending(m);
    assert p == Pending(n);
    IdsGrow(p, m.threads, m.lastId);
    OutsideKeepsPromises(p, m.loggers, m.lastId, n.loggers);
  }

  lemma PopKeepsOrder(m: Manager)
    requires OrderInv(m) && Enabled(m, Pop)
    ensures OrderInv(Next(m, Pop))
  {
    assert Pending(Next(m, Pop)) == Pending(m);
    hide Records, Popped, PromiseInv, MetInv, AcceptInv, MetAccepts, FifoInv;
  }

  lemma ProcessKeepsPromises(d: LogData, queue: seq<LogData>, loggers: seq<Settings>, after: seq<Settings>)
    requires PromiseInv([d] + queue, loggers) && |after| == |loggers|
    requires forall id :: 0 <= id < |loggers| ==> after[id] == ChangesOf(d, id, loggers[id])
    ensures PromiseInv(queue, after)
  {
    var p := [d] + queue;
    forall k | 0 <= k < |queue| ensures KeptAt(queue, after, k) {
      assert KeptAt(p, loggers, k + 1) && p[k + 1] == queue[k];
      assert p[..k + 1][1..] == queue[..k];
    }
  }

  lemma ProcessKeepsAccepted(d: LogData, queue: seq<LogData>, loggers: seq<Settings>, after: seq<Settings>)
    requires AcceptInv([d] + queue, loggers) && |after| == |loggers|
    requires forall id :: 0 <= id < |loggers| ==> after[id] == ChangesOf(d, id, loggers[id])
    ensures AcceptInv(queue, after)
  {
    var p := [d] + queue;
    forall k | 0 <= k < |queue| ensures AcceptedAt(queue, after, k) {
      assert AcceptedAt(p, loggers, k + 1) && p[k + 1] == queue[k];
      assert p[..k + 1][1..] == queue[..k];
    }
  }

  lemma ProcessKeepsFifo(d: LogData, met: Settings, queue: seq<LogData>, log: History)
    requires FifoInv([d] + queue, log)
    ensures FifoInv(queue, if d.body.Hot? then log
                           else log.(popped := log.popped + [Outcome(d, met)], popCount := log.popCount + 1))
  {
    RecordsCons(d, queue);
    if d.body.General? {
      PoppedSnoc(log.popped, Outcome(d, met));
      var a, b := Popped(log.popped), Records(queue);
      assert a + ([d] + b) == a + [d] + b;
    } else {
      assert Records([d] + queue) == Records(queue);
    }
  }

  /** What DoProcess does, entry by entry. */
  lemma ProcessCases(m: Manager)
    requires OrderInv(m) && Enabled(m, Process)
    ensures var n, d := Next(m, Process), m.threads[0].d;
      Pending(m) == [d] + m.queue && Pending(n) == m.queue && InRange(m, d.id) &&
      n == m.(threads := m.threads[0 := Discarding(d)], loggers := n.loggers, log := n.log) &&
      |n.loggers| == |m.loggers| &&
      (forall id :: 0 <= id < |m.loggers| ==> n.loggers[id] == ChangesOf(d, id, m.loggers[id])) &&
      n.log == if d.body.Hot? then m.log
               else m.log.(popped := m.log.popped + [Outcome(d, m.loggers[d.id])], popCount := m.log.popCount + 1)
  {
    var n, d := Next(m, Process), m.threads[0].d;
    assert Pending(m) == [d] + m.queue && Pending(n) == m.queue;
    assert d in Pending(m);
    hide FifoInv, ExitInv, PromiseInv, MetInv, AcceptInv, MetAccepts;
  }

  lemma ProcessKeepsMet(m: Manager, d: LogData)
    requires WellFormed(m) && Pending(m) == [d] + m.queue && PromiseInv(Pending(m), m.loggers) && MetInv(m.log.popped)
    requires 0 <= d.id < |m.loggers| && d.body.General?
    ensures MetInv(m.log.popped + [Outcome(d, m.loggers[d.id])])
  {
    assert KeptAt(Pending(m), m.loggers, 0);
    assert Pending(m)[..0] == [];
  }

  lemma ProcessKeepsMetAccepts(m: Manager, d: LogData)
    requires WellFormed(m) && Pending(m) == [d] + m.queue && AcceptInv(Pending(m), m.loggers) && MetAccepts(m.log.popped)
    requires 0 <= d.id < |m.loggers| && d.body.General?
    ensures MetAccepts(m.log.popped + [Outcome(d, m.loggers[d.id])])
  {
    assert AcceptedAt(Pending(m), m.loggers, 0);
    assert Pending(m)[..0] == [];
  }

  lemma ProcessKeepsIds(d: LogData, queue: seq<LogData>, threads: seq<Thread>, lastId: nat)
    requires IdInv([d] + queue, threads, lastId) && |threads| > 0
    ensures IdInv(queue, threads[0 := Discarding(d)], lastId)
  {
  }

  lemma ProcessMeansRunning(m: Manager)
    requires WellFormed(m) && ExitInv(m) && m.threads[0].Got?
    ensures !m.exited
  {
  }

  lemma ProcessKeepsOrder(m: Manager)
    requires OrderInv(m) && Enabled(m, Process)
    ensures OrderInv(Next(m, Process))
  {
    ProcessMeansRunning(m);
    hide Next, ChangesOf, FifoInv, PromiseInv, MetInv, AcceptInv, MetAccepts, IdInv, Records, Popped;
    var n, d := Next(m, Process), m.threads[0].d;
    ProcessCases(m);
    NextIsWellFormed(m, Process);
    ProcessKeepsFifo(d, m.loggers[d.id], m.queue, m.log);
    ProcessKeepsIds(d, m.queue, m.threads, m.lastId);
    if !m.log.changed {
      ProcessKeepsPromises(d, m.queue, m.loggers, n.loggers);
      if d.body.General? {
        ProcessKeepsMet(m, d);
      }
    }
    if !m.log.overtaken {
      ProcessKeepsAccepted(d, m.queue, m.loggers, n.loggers);
      if d.body.General? {
        ProcessKeepsMetAccepts(m, d);
      }
    }
  }

  // ---- changes made at once ----

  lemma SameKindOverwrites(s: Settings, c: Change, e: Change)
    requires SameKind(e, c)
    ensures Apply(Apply(s, c), e) == Apply(s, e)
  {
  }

  lemma OtherKindsCommute(s: Settings, c: Change, e: Change)
    requires !SameKind(e, c)
    ensures Apply(Apply(s, c), e) == Apply(Apply(s, e), c)
  {
  }

  /**
   When a change made at once turns a record away that was going to be accepted: exactly if the change rejects
   its level, and no change of the same kind is queued ahead of the record.
   */
  lemma {:induction false} TurnedAwayIff(ahead: seq<LogData>, id: int, s: Settings, c: Change, level: int)
    requires Accepts(Fold(ahead, id, s), level)
    ensures !Accepts(Fold(ahead, id, Apply(s, c)), level) <==> Rejects(c, level) && !Shadowed(ahead, id, c)
    decreases |ahead|
  {
    if ahead == [] {
      assert !Shadowed(ahead, id, c);
    } else {
      var d, rest := ahead[0], ahead[1..];
      ShadowedCons(ahead, id, c);
      hide Accepts, Rejects, Shadowed, Apply, SameKind;
      if d.id == id && d.body.Hot? {
        if SameKind(d.body.change, c) {
          SameKindOverwrites(s, c, d.body.change);
        } else {
          OtherKindsCommute(s, c, d.body.change);
        }
      }
      if !(d.id == id && d.body.Hot? && SameKind(d.body.change, c)) {
        TurnedAwayIff(rest, id, ChangesOf(d, id, s), c, level);
      }
    }
  }

  lemma ShadowedCons(ahead: seq<LogData>, id: int, c: Change)
    requires ahead != []
    ensures Shadowed(ahead, id, c) <==>
            (ahead[0].id == id && ahead[0].body.Hot? && SameKind(ahead[0].body.change, c)) || Shadowed(ahead[1..], id, c)
  {
    hide SameKind;
    if Shadowed(ahead[1..], id, c) {
      var rest := ahead[1..];
      var j :| 0 <= j < |rest| && rest[j].id == id && rest[j].body.Hot? && SameKind(rest[j].body.change, c);
      assert ahead[j + 1] == rest[j];
    }
    if j :| 0 <= j < |ahead| && ahead[j].id == id && ahead[j].body.Hot? && SameKind(ahead[j].body.change, c) {
      assert j > 0 ==> ahead[1..][j - 1] == ahead[j];
    }
  }

  lemma ChangeKeepsPromises(p: seq<LogData>, loggers: seq<Settings>, id: int, s: Settings)
    requires PromiseInv(p, loggers) && 0 <= id < |loggers| && !HasRecord(p, id)
    ensures PromiseInv(p, loggers[id := s])
  {
    var after := loggers[id := s];
    forall k | 0 <= k < |p| ensures KeptAt(p, after, k) {
      assert KeptAt(p, loggers, k) && !IsRecordOf(p[k], id);
    }
  }

  lemma ChangeKeepsAccepted(p: seq<LogData>, loggers: seq<Settings>, id: int, c: Change)
    requires AcceptInv(p, loggers) && 0 <= id < |loggers| && !TurnsAway(p, id, loggers[id], c)
    ensures AcceptInv(p, loggers[id := Apply(loggers[id], c)])
  {
    hide Apply, Rejects, Shadowed, Accepts, Fold;
    var after := loggers[id := Apply(loggers[id], c)];
    forall k | 0 <= k < |p| ensures AcceptedAt(p, after, k) {
      assert AcceptedAt(p, loggers, k);
      if IsRecordOf(p[k], id) && Accepts(Fold(p[..k], id, loggers[id]), p[k].body.level) {
        TurnedAwayIff(p[..k], id, loggers[id], c, p[k].body.level);
      }
    }
  }

  lemma ChangeKeepsOrder(m: Manager, id: int, c: Change)
    requires OrderInv(m) && Enabled(m, ChangeNow(id, c))
    ensures OrderInv(Next(m, ChangeNow(id, c)))
  {
    hide IdInv, Records, Popped, PromiseInv, MetInv, AcceptInv, MetAccepts, Apply, HasRecord, TurnsAway;
    var n := Next(m, ChangeNow(id, c));
    assert Pending(n) == Pending(m);
    if !n.log.changed {
      ChangeKeepsPromises(Pending(m), m.loggers, id, Apply(m.loggers[id], c));
    }
    if !n.log.overtaken {
      ChangeKeepsAccepted(Pending(m), m.loggers, id, c);
    }
  }

  lemma ExitKeepsOrder(m: Manager)
    requires OrderInv(m) && Enabled(m, Exit)
    ensures OrderInv(Next(m, Exit))
  {
    assert Pending(m) == [] && Records([]) == [];
    assert Popped(m.log.popped) + [] == Popped(m.log.popped);
  }

  lemma StepKeepsOrder(m: Manager, s: Step)
    requires OrderInv(m) && Enabled(m, s)
    ensures OrderInv(Next(m, s))
  {
    match s
    case Enqueue(t) => EnqueueKeepsOrder(m, t);
    case EnableNow(id) => LoosenKeepsOrder(m, id, m.loggers[id].(enable := true));
    case LevelNow(id, level) => LoosenKeepsOrder(m, id, m.loggers[id].(level := level));
    case ChangeNow(id, change) => ChangeKeepsOrder(m, id, change);
    case CreateLogger(key) => CreateKeepsOrder(m, key);
    case Pop => PopKeepsOrder(m);
    case Process => ProcessKeepsOrder(m);
    case Exit => ExitKeepsOrder(m);
    case _ => ThreadStepsKeepOrder(m, s);
  }

  lemma {:induction false} RunsKeepOrder(m: Manager, steps: seq<Step>)
    requires WellFormed(m) && Runs(m, steps) && OrderInv(m)
    ensures OrderInv(After(m, steps))
    decreases |steps|
  {
    if steps != [] {
      hide OrderInv, Enabled, Next;
      NextIsWellFormed(m, steps[0]);
      StepKeepsOrder(m, steps[0]);
      RunsKeepOrder(Next(m, steps[0]), steps[1..]);
    }
  }

  lemma InitHasOrder(threads: nat)
    ensures OrderInv(Init(threads))
  {
  }

  // ------------------------------------------------------------------------------------------------
  // The theorems
  // ------------------------------------------------------------------------------------------------

  /**
   Hot-change ordering.  Records are popped in the order they were queued.  Each one that the settings in effect
   accepted when it was queued is accepted when it is popped, unless a setter called after stop() turned it or
   another record away; and unless such a setter changed a logger with a pending record at all, what it meets
   differs from those settings only in letting more through.
   */
  lemma PromisesAreKept(threads: nat, steps: seq<Step>, k: nat)
    requires Runs(Init(threads), steps) && k < |After(Init(threads), steps).log.popped|
    ensures var log := After(Init(threads), steps).log;
      var o := log.popped[k];
      k < |log.pushed| && o.d == log.pushed[k] &&
      (!log.overtaken ==>
         o.d.body.General? && (Accepts(o.d.body.promise, o.d.body.level) ==> Accepts(o.met, o.d.body.level))) &&
      (!log.changed ==> o.d.body.General? && Looser(o.d.body.promise, o.met))
  {
    InitHasOrder(threads);
    RunsKeepOrder(Init(threads), steps);
    var log := After(Init(threads), steps).log;
    hide Init;
    PoppedAt(log.popped, k);
    assert log.popped[k] in log.popped;
  }

  /** The two counters differ by the records in the queue and in the logger's hand, in order. */
  lemma CountersMatchQueue(threads: nat, steps: seq<Step>)
    requires Runs(Init(threads), steps)
    ensures var m := After(Init(threads), steps);
      m.log.pushed == Popped(m.log.popped) + Records(Pending(m)) &&
      m.log.pushCount == m.log.popCount + |Records(Pending(m))|
  {
    InitHasOrder(threads);
    RunsKeepOrder(Init(threads), steps);
    var m := After(Init(threads), steps);
    hide Init;
    if m.log.popped != [] {
      PoppedAt(m.log.popped, 0);
    }
  }

  /** When run has returned, everything queued before it returned has been popped. */
  lemma ExitLeavesNothingQueued(threads: nat, steps: seq<Step>)
    requires Runs(Init(threads), steps) && After(Init(threads), steps).exited
    ensures var m := After(Init(threads), steps);
      Popped(m.log.popped) == m.log.atExit &&
      m.log.pushed == m.log.atExit + Records(m.queue) &&
      (m.log.cleanExit ==> m.log.pushed == Popped(m.log.popped))
  {
    InitHasOrder(threads);
    RunsKeepOrder(Init(threads), steps);
    var m := After(Init(threads), steps);
    hide Init;
    assert Pending(m) == m.queue;
    if m.log.cleanExit {
      assert Popped(m.log.popped) + [] == Popped(m.log.popped);
    }
  }

  lemma ExitLeaves(m: Manager)
    requires OrderInv(m) && Enabled(m, Exit)
    ensures var e := Next(m, Exit);
      OrderInv(e) && e.exited && e.queue == [] && e.threads == m.threads && e.threads[0] == Idle
  {
    ExitKeepsOrder(m);
  }

  lemma LateRecordStays(e: Manager, t: nat)
    requires OrderInv(e) && e.exited && e.queue == [] && e.threads[0] == Idle
    requires t < |e.threads| && e.threads[t].Passed? && e.threads[t].d.body.General?
    ensures Enabled(e, Enqueue(t))
    ensures var n := Next(e, Enqueue(t)); WellFormed(n) && n.exited && n.log.pushed != Popped(n.log.popped)
  {
    assert Enabled(e, Enqueue(t)) && WellFormed(e);
    hide Next, Enabled, OrderInv, Records, Popped;
    var n := Next(e, Enqueue(t));
    NextIsWellFormed(e, Enqueue(t));
    EnqueueKeepsOrder(e, t);
    EnqueueCases(e, t);
    OneMore(n, n.queue[0]);
  }

  lemma OneMore(n: Manager, kept: LogData)
    requires OrderInv(n) && Pending(n) == [kept] && kept.body.General?
    ensures n.log.pushed != Popped(n.log.popped)
  {
    assert FifoInv(Pending(n), n.log);
    assert [kept] == [] + [kept];
    hide OrderInv, Popped;
    RecordsSnoc([], kept);
    assert |n.log.pushed| == |Popped(n.log.popped)| + 1;
  }

  /** The condition is exact: a thread between pushLog's filter and its lock at that moment strands its record. */
  lemma UncleanExitStrands(m: Manager, t: nat)
    requires OrderInv(m) && Enabled(m, Exit) && t < |m.threads| && m.threads[t].Passed?
    requires m.threads[t].d.body.General?
    ensures var steps := [Exit, Enqueue(t)];
      Runs(m, steps) && After(m, steps).exited && After(m, steps).log.pushed != Popped(After(m, steps).log.popped)
  {
    assert WellFormed(m);
    hide *;
    var e := Next(m, Exit);
    NextIsWellFormed(m, Exit);
    ExitLeaves(m);
    LateRecordStays(e, t);
    var n := Next(e, Enqueue(t));
    NoSteps(n);
    RunsCons(e, Enqueue(t), []);
    RunsCons(m, Exit, [Enqueue(t)] + []);
    assert [Exit] + ([Enqueue(t)] + []) == [Exit, Enqueue(t)];
  }
}
