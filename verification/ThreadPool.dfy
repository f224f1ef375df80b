/**
 Round-robin dispatch over the worker threads (src/event_loop_thread_pool.cc).  Both entry points draw from
 one atomic counter, so concurrent calls are some sequence of single increments.
 */
module ThreadPools {

  /** A worker thread is its event loop and its socket for accepting. */
  datatype Worker = Worker(loop: nat, socket: nat)

  datatype Entry = NextLoop | SocketForAccept

  datatype Pool = Pool(workers: seq<Worker>, next: nat, picks: seq<nat>) {

    function Pick(): nat
      requires workers != []
    {
      next % |workers|
    }

    function Call(e: Entry): Pool {
      // without workers the pool's own loop is returned and the counter is left alone
      if workers == [] then this else this.(next := next + 1, picks := picks + [Pick()])
    }

    function CallAll(es: seq<Entry>): Pool
      decreases |es|
    {
      if es == [] then this else Call(es[0]).CallAll(es[1..])
    }
  }

  function Count(picks: seq<nat>, t: nat): nat {
    if picks == [] then 0 else Count(picks[..|picks| - 1], t) + if picks[|picks| - 1] == t then 1 else 0
  }

  /** How many of the numbers below m leave remainder t. */
  function Below(m: nat, n: nat, t: nat): nat
    requires t < n
  {
    m / n + if m % n > t then 1 else 0
  }

  lemma DivUnique(m: nat, n: nat, q: nat, r: nat)
    requires n > 0 && m == q * n + r && r < n
    ensures m / n == q && m % n == r
  {
    var d := m / n - q;
    assert d * n == (m / n) * n - q * n == r - m % n;
    assert -1 < d < 1 by {
      if d >= 1 { TimesAtLeast(d, n); }
      if d <= -1 { TimesAtLeast(-d, n); }
    }
  }

  lemma TimesAtLeast(d: int, n: nat)
    requires d >= 1
    ensures d * n >= n
  {
  }

  lemma BelowStep(m: nat, n: nat, t: nat)
    requires t < n
    ensures Below(m + 1, n, t) == Below(m, n, t) + if m % n == t then 1 else 0
  {
    var q, r := m / n, m % n;
    assert m == q * n + r;
    if r + 1 < n {
      DivUnique(m + 1, n, q, r + 1);
    } else {
      assert (q + 1) * n == q * n + n;
      DivUnique(m + 1, n, q + 1, 0);
    }
  }

  lemma CeilingOf(k: nat, n: nat, q: nat, r: nat)
    requires n > 0 && k == q * n + r && r < n
    ensures k / n == q && (k + n - 1) / n == if r == 0 then q else q + 1
  {
    DivUnique(k, n, q, r);
    if r == 0 {
      DivUnique(k + n - 1, n, q, n - 1);
    } else {
      assert (q + 1) * n == q * n + n;
      DivUnique(k + n - 1, n, q + 1, r - 1);
    }
  }

  lemma SumOf(a: nat, k: nat, n: nat, qa: nat, ra: nat, qk: nat, rk: nat)
    requires n > 0 && a == qa * n + ra && k == qk * n + rk && ra < n && rk < n
    ensures (a + k) / n == qa + qk + if ra + rk < n then 0 else 1
    ensures (a + k) % n == if ra + rk < n then ra + rk else ra + rk - n
  {
    assert (qa + qk) * n == qa * n + qk * n;
    if ra + rk < n {
      DivUnique(a + k, n, qa + qk, ra + rk);
    } else {
      assert (qa + qk + 1) * n == (qa + qk) * n + n;
      DivUnique(a + k, n, qa + qk + 1, ra + rk - n);
    }
  }

  /** In any k consecutive increments each residue comes up floor(k/n) or ceil(k/n) times. */
  lemma WindowIsBalanced(a: nat, k: nat, n: nat, t: nat)
    requires t < n
    ensures k / n <= Below(a + k, n, t) - Below(a, n, t) <= (k + n - 1) / n
  {
    var qa, ra, qk, rk := a / n, a % n, k / n, k % n;
    SumOf(a, k, n, qa, ra, qk, rk);
    CeilingOf(k, n, qk, rk);
  }

  /** The workers that k increments from a choose. */
  function Turns(a: nat, k: nat, n: nat): seq<nat>
    requires n > 0
  {
    if k == 0 then [] else Turns(a, k - 1, n) + [(a + k - 1) % n]
  }

  lemma {:induction false} TurnsCons(a: nat, k: nat, n: nat)
    requires n > 0 && k > 0
    ensures Turns(a, k, n) == [a % n] + Turns(a + 1, k - 1, n)
  {
    if k > 1 {
      TurnsCons(a, k - 1, n);
      assert a + k - 1 == (a + 1) + (k - 1) - 1;
    }
  }

  lemma {:induction false} CallsPickInTurn(p: Pool, es: seq<Entry>)
    requires p.workers != []
    ensures p.CallAll(es) ==
            p.(next := p.next + |es|, picks := p.picks + Turns(p.next, |es|, |p.workers|))
    decreases |es|
  {
    if es != [] {
      var c := p.Call(es[0]);
      CallsPickInTurn(c, es[1..]);
      TurnsCons(p.next, |es|, |p.workers|);
      var rest := Turns(p.next + 1, |es| - 1, |p.workers|);
      assert p.picks + [p.Pick()] + rest == p.picks + ([p.Pick()] + rest);
    }
  }

  lemma {:induction false} CountTurns(a: nat, k: nat, n: nat, t: nat)
    requires t < n
    ensures Count(Turns(a, k, n), t) == Below(a + k, n, t) - Below(a, n, t)
  {
    if k > 0 {
      CountTurns(a, k - 1, n, t);
      BelowStep(a + k - 1, n, t);
      var ts := Turns(a, k, n);
      assert ts[..|ts| - 1] == Turns(a, k - 1, n);
    }
  }

  /** Any k consecutive calls, mixing both entry points: each of n workers is chosen floor(k/n) or ceil(k/n) times. */
  lemma DispatchIsBalanced(p: Pool, es: seq<Entry>, t: nat)
    requires t < |p.workers|
    ensures var q := p.CallAll(es);
      |p.picks| <= |q.picks| &&
      var chosen := Count(q.picks[|p.picks|..], t);
      |es| / |p.workers| <= chosen <= (|es| + |p.workers| - 1) / |p.workers|
  {
    CallsPickInTurn(p, es);
    var n := |p.workers|;
    assert p.CallAll(es).picks[|p.picks|..] == Turns(p.next, |es|, n);
    CountTurns(p.next, |es|, n, t);
    WindowIsBalanced(p.next, |es|, n, t);
  }

  class EventLoopThreadPool {
    const baseLoop: nat
    const threads: seq<Worker>
    var next: nat
    ghost var picks: seq<nat>

    ghost function State(): Pool
      reads this
    {
      Pool(threads, next, picks)
    }

    constructor (baseLoop: nat, threads: seq<Worker>)
      ensures this.baseLoop == baseLoop && State() == Pool(threads, 0, [])
    {
      this.baseLoop, this.threads := baseLoop, threads;
      next, picks := 0, [];
    }

    method GetNextLoop() returns (loop: nat)
      modifies this
      ensures State() == old(State()).Call(NextLoop)
      ensures loop == if threads == [] then baseLoop else threads[old(State()).Pick()].loop
    {
      loop := baseLoop;
      if threads != [] {
        var turn := next;
        next := next + 1;
        picks := picks + [turn % |threads|];
        loop := threads[turn % |threads|].loop;
      }
    }

    /** The socket and the loop belong to the same worker. */
    method GetSocketForAccept() returns (found: bool, socket: nat, loop: nat)
      modifies this
      ensures State() == old(State()).Call(SocketForAccept)
      ensures found <==> threads != []
      ensures if found then Worker(loop, socket) == threads[old(State()).Pick()] else loop == baseLoop
    {
      if threads == [] {
        return false, 0, baseLoop;
      }
      var turn := next;
      next := next + 1;
      picks := picks + [turn % |threads|];
      found, loop, socket := true, threads[turn % |threads|].loop, threads[turn % |threads|].socket;
    }
  }
}
