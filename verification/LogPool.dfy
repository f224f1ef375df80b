/**
 Who owns a LogData: the queue, the free list, one thread's hand, or nobody any more.
 */
module LogPool {
  import opened LogQueues

  function One(b: bool): nat {
    if b then 1 else 0
  }

  function InQueue(queue: seq<LogData>, p: nat): nat {
    if queue == [] then 0 else InQueue(queue[..|queue| - 1], p) + One(queue[|queue| - 1].ptr == p)
  }

  function InFree(free: seq<nat>, p: nat): nat {
    if free == [] then 0 else InFree(free[..|free| - 1], p) + One(free[|free| - 1] == p)
  }

  function InHand(thread: Thread, p: nat): nat {
    One(thread != Idle && thread.d.ptr == p)
  }

  function InHands(threads: seq<Thread>, p: nat): nat {
    if threads == [] then 0 else InHands(threads[..|threads| - 1], p) + InHand(threads[|threads| - 1], p)
  }

  /** How often p is in the queue, on the free list, in a hand, and among the deleted. */
  function Places(m: Manager, p: nat): nat {
    InQueue(m.queue, p) + InFree(m.free, p) + InHands(m.threads, p) + One(p in m.deleted)
  }

  lemma QueueSnoc(queue: seq<LogData>, d: LogData, p: nat)
    ensures InQueue(queue + [d], p) == InQueue(queue, p) + One(d.ptr == p)
  {
    assert (queue + [d])[..|queue|] == queue;
  }

  lemma {:induction false} QueueHead(queue: seq<LogData>, p: nat)
    requires queue != []
    ensures InQueue(queue, p) == One(queue[0].ptr == p) + InQueue(queue[1..], p)
  {
    if |queue| > 1 {
      var n := |queue| - 1;
      QueueHead(queue[..n], p);
      assert queue[1..][..n - 1] == queue[..n][1..];
    }
  }

  lemma FreeSnoc(free: seq<nat>, q: nat, p: nat)
    ensures InFree(free + [q], p) == InFree(free, p) + One(q == p)
  {
    assert (free + [q])[..|free|] == free;
  }

  lemma {:induction false} HandsUpdate(threads: seq<Thread>, t: nat, x: Thread, p: nat)
    requires t < |threads|
    ensures InHands(threads[t := x], p) + InHand(threads[t], p) == InHands(threads, p) + InHand(x, p)
    ensures InHand(threads[t], p) <= InHands(threads, p)
  {
    var n := |threads| - 1;
    if t == n {
      assert threads[t := x][..n] == threads[..n];
    } else {
      HandsUpdate(threads[..n], t, x, p);
      assert threads[t := x][..n] == threads[..n][t := x];
    }
  }

  /** Threads past the size check of freeLogData but not yet at its push. */
  function Returners(threads: seq<Thread>): (n: nat)
    ensures n <= |threads|
  {
    if threads == [] then 0 else Returners(threads[..|threads| - 1]) + One(threads[|threads| - 1].Returning?)
  }

  lemma {:induction false} ReturnersUpdate(threads: seq<Thread>, t: nat, x: Thread)
    requires t < |threads|
    ensures Returners(threads[t := x]) + One(threads[t].Returning?) == Returners(threads) + One(x.Returning?)
  {
    var n := |threads| - 1;
    if t == n {
      assert threads[t := x][..n] == threads[..n];
    } else {
      ReturnersUpdate(threads[..n], t, x);
      assert threads[t := x][..n] == threads[..n][t := x];
    }
  }

  ghost predicate OnePlace(m: Manager, p: nat) {
    Places(m, p) == One(p < m.made)
  }

  ghost predicate FreeBound(m: Manager) {
    |m.free| + Returners(m.threads) <= FREE_LIMIT - 1 + |m.threads|
  }

  /** A LogData that stays in thread t's hand, or leaves it for the queue, the free list or the deleted. */
  lemma HandKeepsPlace(m: Manager, t: nat, n: Manager, p: nat)
    requires t < |m.threads| && m.threads[t] != Idle && OnePlace(m, p) && n.made == m.made
    requires |n.threads| > t && n.threads == m.threads[t := n.threads[t]]
    requires var q := m.threads[t].d.ptr;
      || (n.threads[t] != Idle && n.threads[t].d.ptr == q && n.queue == m.queue && n.free == m.free && n.deleted == m.deleted)
      || (n.threads[t] == Idle && n.queue == m.queue && n.free == m.free && n.deleted == m.deleted + {q})
      || (n.threads[t] == Idle && n.queue == m.queue && n.free == m.free + [q] && n.deleted == m.deleted)
      || (n.threads[t] == Idle && |n.queue| > |m.queue| && n.queue == m.queue + [n.queue[|m.queue|]]
          && n.queue[|m.queue|].ptr == q && n.free == m.free && n.deleted == m.deleted)
    ensures OnePlace(n, p)
  {
    hide InQueue, InFree, InHands;
    HandsUpdate(m.threads, t, n.threads[t], p);
    FreeSnoc(m.free, m.threads[t].d.ptr, p);
    if |n.queue| > |m.queue| {
      QueueSnoc(m.queue, n.queue[|m.queue|], p);
    }
  }

  lemma PopKeepsPlace(m: Manager, n: Manager, p: nat)
    requires PopsHead(m, n) && OnePlace(m, p)
    ensures OnePlace(n, p)
  {
    hide InQueue, InFree, InHands;
    HandsUpdate(m.threads, 0, Got(m.queue[0]), p);
    QueueHead(m.queue, p);
  }

  /** Every step that moves a LogData, seen from one object p. */
  lemma StepKeepsPlace(m: Manager, s: Step, p: nat)
    requires WellFormed(m) && Enabled(m, s) && OnePlace(m, p)
    ensures OnePlace(Next(m, s), p)
  {
    var n := Next(m, s);
    StepShape(m, s);
    hide Next, Enabled, OnePlace, SameContent;
    match s
    case Make(t, _, _, _, reuse) => MakeKeepsPlace(m, t, n, reuse, p);
    case MakeChange(t, _, _, reuse) => MakeKeepsPlace(m, t, n, reuse, p);
    case Filter(t) => HandKeepsPlace(m, t, n, p);
    case Enqueue(t) => HandKeepsPlace(m, t, n, p);
    case SizeCheck(t) => HandKeepsPlace(m, t, n, p);
    case Return(t) => HandKeepsPlace(m, t, n, p);
    case Pop => PopKeepsPlace(m, n, p);
    case Process => HandKeepsPlace(m, 0, n, p);
    case _ => NothingKeepsPlace(m, n, p);
  }

  lemma NothingKeepsPlace(m: Manager, n: Manager, p: nat)
    requires OnePlace(m, p) && MovesNothing(m, n)
    ensures OnePlace(n, p)
  {
  }

  lemma MakeKeepsPlace(m: Manager, t: nat, n: Manager, reuse: bool, p: nat)
    requires OnePlace(m, p) && t < |m.threads| && m.threads[t] == Idle && (reuse ==> m.free != [])
    requires |n.threads| > t && n.threads == m.threads[t := n.threads[t]] && n.threads[t].Holding?
    requires n.queue == m.queue && n.deleted == m.deleted
    requires if reuse then n.made == m.made && m.free == n.free + [n.threads[t].d.ptr]
             else n.made == m.made + 1 && n.free == m.free && n.threads[t].d.ptr == m.made
    ensures OnePlace(n, p)
  {
    HandsUpdate(m.threads, t, n.threads[t], p);
    if reuse {
      FreeSnoc(n.free, n.threads[t].d.ptr, p);
    }
  }

  /** Thread t moves on: what it adds to the list it gives up as a promise to, or the list was short. */
  lemma MoveKeepsBound(m: Manager, t: nat, n: Manager)
    requires FreeBound(m) && t < |m.threads| && |n.threads| > t && n.threads == m.threads[t := n.threads[t]]
    requires |n.free| + One(n.threads[t].Returning?) <= |m.free| + One(m.threads[t].Returning?) || |n.free| < FREE_LIMIT
    ensures FreeBound(n)
  {
    ReturnersUpdate(m.threads, t, n.threads[t]);
  }

  lemma StepKeepsBound(m: Manager, s: Step)
    requires WellFormed(m) && Enabled(m, s) && FreeBound(m)
    ensures FreeBound(Next(m, s))
  {
    var n := Next(m, s);
    StepShape(m, s);
    hide Next, Enabled, FreeBound, SameEntry;
    match s
    case Make(t, _, _, _, _) => MoveKeepsBound(m, t, n);
    case MakeChange(t, _, _, _) => MoveKeepsBound(m, t, n);
    case Filter(t) => MoveKeepsBound(m, t, n);
    case Enqueue(t) => MoveKeepsBound(m, t, n);
    case SizeCheck(t) => MoveKeepsBound(m, t, n);
    case Return(t) => MoveKeepsBound(m, t, n);
    case Pop => MoveKeepsBound(m, 0, n);
    case Process => MoveKeepsBound(m, 0, n);
    case _ => SameBound(m, n);
  }

  lemma SameBound(m: Manager, n: Manager)
    requires FreeBound(m) && MovesNothing(m, n)
    ensures FreeBound(n)
  {
  }

  lemma {:induction false} RunsKeepPool(m: Manager, steps: seq<Step>, p: nat)
    requires WellFormed(m) && Runs(m, steps) && OnePlace(m, p) && FreeBound(m)
    ensures OnePlace(After(m, steps), p) && FreeBound(After(m, steps))
    decreases |steps|
  {
    if steps != [] {
      hide OnePlace, FreeBound, Enabled, Next, WellFormed;
      NextIsWellFormed(m, steps[0]);
      StepKeepsPlace(m, steps[0], p);
      StepKeepsBound(m, steps[0]);
      RunsKeepPool(Next(m, steps[0]), steps[1..], p);
    }
  }

  lemma {:induction false} IdleHandsAreEmpty(threads: seq<Thread>, p: nat)
    requires forall t :: 0 <= t < |threads| ==> threads[t] == Idle
    ensures InHands(threads, p) == 0 && Returners(threads) == 0
  {
    if threads != [] {
      IdleHandsAreEmpty(threads[..|threads| - 1], p);
    }
  }

  /**
   Every LogData ever made is in exactly one place - queue, free list, one thread's hand, or deleted - and
   nothing else is anywhere; and with T threads the free list never holds more than 199 + T objects, although
   its size is checked outside the lock.
   */
  lemma LogDataIsConserved(clients: nat, steps: seq<Step>, p: nat)
    requires Runs(Init(clients), steps)
    ensures var m := After(Init(clients), steps);
      Places(m, p) == (if p < m.made then 1 else 0) &&
      |m.threads| == clients + 1 && |m.free| <= 199 + |m.threads|
  {
    var i := Init(clients);
    IdleHandsAreEmpty(i.threads, p);
    RunsKeepPool(i, steps, p);
  }

  // ---- the sum ----

  function Held(threads: seq<Thread>): nat {
    if threads == [] then 0 else Held(threads[..|threads| - 1]) + One(threads[|threads| - 1] != Idle)
  }

  lemma {:induction false} HeldUpdate(threads: seq<Thread>, t: nat, x: Thread)
    requires t < |threads|
    ensures Held(threads[t := x]) + One(threads[t] != Idle) == Held(threads) + One(x != Idle)
    ensures One(threads[t] != Idle) <= Held(threads)
  {
    var n := |threads| - 1;
    if t == n {
      assert threads[t := x][..n] == threads[..n];
    } else {
      HeldUpdate(threads[..n], t, x);
      assert threads[t := x][..n] == threads[..n][t := x];
    }
  }

  /** As many as were made are queued, free, held or deleted; and none was deleted before 200 were free at once. */
  ghost predicate SumInv(m: Manager) {
    |m.queue| + |m.free| + Held(m.threads) + |m.deleted| == m.made &&
    (m.deleted != {} ==> m.made > 200)
  }

  lemma MoveKeepsSum(m: Manager, t: nat, n: Manager)
    requires SumInv(m) && t < |m.threads| && |n.threads| > t && n.threads == m.threads[t := n.threads[t]]
    requires |n.queue| + |n.free| + |n.deleted| + One(n.threads[t] != Idle) + m.made
             == |m.queue| + |m.free| + |m.deleted| + One(m.threads[t] != Idle) + n.made
    requires n.made >= m.made && (n.deleted == m.deleted || (|m.free| >= 200 && m.threads[t] != Idle))
    ensures SumInv(n)
  {
    HeldUpdate(m.threads, t, n.threads[t]);
  }

  lemma HandIsNotDeleted(m: Manager, t: nat)
    requires t < |m.threads| && m.threads[t] != Idle && OnePlace(m, m.threads[t].d.ptr)
    ensures m.threads[t].d.ptr !in m.deleted
  {
    HandsUpdate(m.threads, t, Idle, m.threads[t].d.ptr);
  }

  lemma StepKeepsSum(m: Manager, s: Step)
    requires WellFormed(m) && Enabled(m, s) && SumInv(m)
    requires s.SizeCheck? ==> s.t < |m.threads| && m.threads[s.t] != Idle && OnePlace(m, m.threads[s.t].d.ptr)
    ensures SumInv(Next(m, s))
  {
    var n := Next(m, s);
    StepShape(m, s);
    assert s.SizeCheck? ==> m.threads[s.t].Discarding?;
    hide Next, Enabled, SumInv, SameEntry, OnePlace;
    match s
    case Make(t, _, _, _, _) => MoveKeepsSum(m, t, n);
    case MakeChange(t, _, _, _) => MoveKeepsSum(m, t, n);
    case Filter(t) => MoveKeepsSum(m, t, n);
    case Enqueue(t) => MoveKeepsSum(m, t, n);
    case SizeCheck(t) =>
      HandIsNotDeleted(m, t);
      MoveKeepsSum(m, t, n);
    case Return(t) => MoveKeepsSum(m, t, n);
    case Pop => MoveKeepsSum(m, 0, n);
    case Process => MoveKeepsSum(m, 0, n);
    case _ => SameSum(m, n);
  }

  lemma SameSum(m: Manager, n: Manager)
    requires SumInv(m) && MovesNothing(m, n)
    ensures SumInv(n)
  {
  }

  ghost predicate AllOnePlace(m: Manager) {
    forall p :: OnePlace(m, p)
  }

  lemma {:induction false} RunsKeepSum(m: Manager, steps: seq<Step>)
    requires WellFormed(m) && Runs(m, steps) && SumInv(m) && AllOnePlace(m)
    ensures SumInv(After(m, steps))
    decreases |steps|
  {
    if steps != [] {
      FirstStep(m, steps);
      assert steps[0].SizeCheck? ==> OnePlace(m, m.threads[steps[0].t].d.ptr);
      var n := Next(m, steps[0]);
      hide Enabled, Next, WellFormed, SumInv, OnePlace;
      forall p ensures OnePlace(n, p) {
        StepKeepsPlace(m, steps[0], p);
      }
      StepKeepsSum(m, steps[0]);
      RunsKeepSum(n, steps[1..]);
    }
  }

  lemma {:induction false} IdleHoldNothing(threads: seq<Thread>)
    requires forall t :: 0 <= t < |threads| ==> threads[t] == Idle
    ensures Held(threads) == 0
  {
    if threads != [] {
      IdleHoldNothing(threads[..|threads| - 1]);
    }
  }

  /**
   Nothing leaks and nothing is freed too soon: the entries queued, free, held and deleted add up to those made,
   and none is ever deleted unless more than 200 were made.
   */
  lemma TotalIsConserved(clients: nat, steps: seq<Step>)
    requires Runs(Init(clients), steps)
    ensures var m := After(Init(clients), steps);
      |m.queue| + |m.free| + Held(m.threads) + |m.deleted| == m.made && (m.deleted != {} ==> m.made > 200)
  {
    var i := Init(clients);
    IdleHoldNothing(i.threads);
    forall p ensures OnePlace(i, p) {
      IdleHandsAreEmpty(i.threads, p);
    }
    RunsKeepSum(i, steps);
  }
}
