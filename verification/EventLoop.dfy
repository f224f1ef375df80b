/**
 The event loop (src/event_loop.cc): a FIFO of posted tasks, and an inline path for callers that are
 already on the loop's thread.  Tasks are data here; running one is the business of the component that
 owns the loop.
 */
module EventLoops {

  type ThreadId = nat

  datatype Loop<T> = Loop(tid: ThreadId, running: bool, queue: seq<T>) {

    predicate IsInLoopThread(caller: ThreadId) {
      tid == caller
    }

    function Run(caller: ThreadId): Loop<T> {
      this.(tid := caller, running := true)
    }

    function QueueInLoop(task: T): Loop<T> {
      this.(queue := queue + [task])
    }

    /** What to run at once, on the caller's own stack, and the loop afterwards. */
    function RunInLoop(caller: ThreadId, task: T): (seq<T>, Loop<T>) {
      if IsInLoopThread(caller) then ([task], this) else ([], QueueInLoop(task))
    }

    function Pop(): Loop<T>
      requires queue != []
    {
      this.(queue := queue[1..])
    }
  }

  /** A loop belongs to the thread that constructed it until it runs. */
  function NewLoop<T>(creator: ThreadId): Loop<T> {
    Loop(creator, false, [])
  }

  /** Running makes the caller, and nobody else, the loop's thread. */
  lemma RunTakesOver<T>(loop: Loop<T>, caller: ThreadId, other: ThreadId)
    ensures loop.Run(caller).running && loop.Run(caller).queue == loop.queue
    ensures loop.Run(caller).IsInLoopThread(other) <==> other == caller
  {
  }

  /** No task is lost or run early: what a caller hands over runs at once on the loop's thread, and last otherwise. */
  lemma HandedOver<T>(loop: Loop<T>, caller: ThreadId, task: T)
    ensures var (now, after) := loop.RunInLoop(caller, task);
      after.tid == loop.tid && after.running == loop.running &&
      now + after.queue[|loop.queue|..] == [task] && after.queue[..|loop.queue|] == loop.queue &&
      (now == [task] <==> loop.tid == caller)
  {
  }

  class EventLoop<T> {
    var tid: ThreadId
    var running: bool
    var queue: seq<T>

    ghost function State(): Loop<T>
      reads this
    {
      Loop(tid, running, queue)
    }

    constructor (creator: ThreadId)
      ensures State() == NewLoop(creator)
    {
      tid, running, queue := creator, false, [];
    }

    predicate IsInLoopThread(caller: ThreadId)
      reads this
    {
      tid == caller
    }

    /** Run, up to handing the thread to the service. */
    method Run(caller: ThreadId)
      modifies this
      ensures State() == old(State()).Run(caller)
    {
      tid := caller;
      running := true;
    }

    /** Run, once the service has returned: the loop still belongs to its thread. */
    method EndRun()
      modifies this`running
      ensures State() == old(State()).(running := false)
    {
      running := false;
    }

    method QueueInLoop(task: T)
      modifies this`queue
      ensures State() == old(State()).QueueInLoop(task)
    {
      queue := queue + [task];
    }

    method RunInLoop(caller: ThreadId, task: T) returns (now: seq<T>)
      modifies this`queue
      ensures (now, State()) == old(State()).RunInLoop(caller, task)
    {
      if IsInLoopThread(caller) {
        now := [task];
      } else {
        QueueInLoop(task);
        now := [];
      }
    }

    method Pop() returns (task: T)
      requires queue != []
      modifies this`queue
      ensures task == old(queue[0]) && State() == old(State()).Pop()
    {
      task := queue[0];
      queue := queue[1..];
    }
  }
}
