/**
 The server's registry of connections (src/tcp_server.cc) as a protocol between the listening loop, which
 creates connections and owns conns_, and the worker loops, on which connections live and die.

 Loop 0 is the listening loop, run by thread 0, which also constructs all the others; loop k > 0 is run by
 thread k once it has started.  HandleNewConn takes two steps, because between handing a connection to its
 loop and entering it in conns_ other threads run.
 */
module TcpServers {
  import opened EventLoops
  import opened Decimals

  /** Everything on the server's side that asserts the thread it runs on; the last two are never posted. */
  datatype Task =
    | Attach(id: nat)        // TCPConn::OnAttachedToLoop
    | Remove(id: nat)        // the lambda of RemoveConn
    | SendBytes(id: nat)     // TCPConn::SendInLoop
    | CloseSocket(id: nat)   // the lambda of TCPConn::Close
    | HandleClose(id: nat)
    | Accepted(id: nat)      // TCPServer::HandleNewConn, in the completion of an accept

  /** One execution of a task: on which thread, and what its IsInLoopThread assertion said. */
  datatype Ran = Ran(task: Task, thread: ThreadId, asserted: bool)

  datatype Window = Closed | Entering(id: nat)

  datatype Server = Server(
    name: string,
    loops: seq<Loop<Task>>,
    nextConnId: nat,
    conns: map<string, nat>,
    window: Window,          // the connection HandleNewConn has handed out but not yet entered
    home: seq<nat>,          // the loop of each connection
    attached: set<nat>,      // OnAttachedToLoop has run
    closed: set<nat>,        // the close callback has run at least once
    inserted: set<nat>,      // entered in conns_
    removed: set<nat>,       // erased after being entered
    early: set<nat>,         // erased before being entered
    unstarted: bool,         // a connection was given to a loop whose thread had not started
    ran: seq<Ran>)
  {
    function ConnName(id: nat): string {
      name + "-conn" + "#" + Decimal(id)
    }
  }

  datatype Step =
    | StartLoop(k: nat)
    | Accept(k: nat)                        // HandleNewConn up to RunInLoop
    | Enter                                 // the rest of HandleNewConn
    | RunTask(k: nat)
    | CloseCallback(id: nat)                // TCPConn::HandleClose calls close_fn_
    | UserRemove(thread: ThreadId, id: nat) // RemoveConn is public
    | UserSend(thread: ThreadId, id: nat)
    | UserClose(id: nat)

  function Init(name: string, workers: nat): Server {
    Server(name, [Loop(0, true, [])] + seq(workers, _ => NewLoop(0)), 0, map[], Closed, [], {}, {}, {}, {}, {}, false, [])
  }

  predicate Enabled(s: Server, step: Step) {
    |s.loops| > 0 && |s.home| == s.nextConnId && (forall i :: 0 <= i < |s.home| ==> s.home[i] < |s.loops|) &&
    match step
    case StartLoop(k) => 0 < k < |s.loops| && !s.loops[k].running
    case Accept(k) => s.window == Closed && (if |s.loops| > 1 then 0 < k < |s.loops| else k == 0)
    case Enter => s.window != Closed
    // the listening loop runs nothing while it is inside HandleNewConn
    case RunTask(k) => k < |s.loops| && s.loops[k].running && s.loops[k].queue != [] && (k == 0 ==> s.window == Closed)
    case CloseCallback(id) =>
      id in s.attached && id < s.nextConnId && s.loops[s.home[id]].running && (s.home[id] == 0 ==> s.window == Closed)
    case UserRemove(_, id) => id in s.attached
    case UserSend(_, id) => id in s.attached && id < s.nextConnId
    case UserClose(id) => id < s.nextConnId
  }

  function Execute(s: Server, task: Task, k: nat, thread: ThreadId): Server
    requires k < |s.loops|
  {
    var r := s.(ran := s.ran + [Ran(task, thread, s.loops[k].IsInLoopThread(thread))]);
    match task
    case Attach(id) => r.(attached := s.attached + {id})
    case Remove(id) =>
      var e := r.(conns := s.conns - {s.ConnName(id)});
      if id in s.inserted then e.(removed := s.removed + {id}) else e.(early := s.early + {id})
    case _ => r
  }

  /** EventLoop::RunInLoop on loop k. */
  function RunInLoop(s: Server, k: nat, caller: ThreadId, task: Task): Server
    requires k < |s.loops|
  {
    var (now, loop) := s.loops[k].RunInLoop(caller, task);
    if now != [] then Execute(s, task, k, caller) else s.(loops := s.loops[k := loop])
  }

  function DoRemoveConn(s: Server, caller: ThreadId, id: nat): Server
    requires |s.loops| > 0
  {
    RunInLoop(s, 0, caller, Remove(id))
  }

  function BeginNewConn(s: Server, k: nat): Server
    requires k < |s.loops|
  {
    var id := s.nextConnId;
    var t := s.(nextConnId := id + 1, home := s.home + [k], window := Entering(id),
                unstarted := s.unstarted || !s.loops[k].running,
                ran := s.ran + [Ran(Accepted(id), 0, s.loops[0].IsInLoopThread(0))]);
    RunInLoop(t, k, 0, Attach(id))
  }

  function EnterConn(s: Server): Server
    requires s.window != Closed
  {
    var id := s.window.id;
    s.(conns := s.conns[s.ConnName(id) := id], inserted := s.inserted + {id}, window := Closed)
  }

  function Next(s: Server, step: Step): Server
    requires Enabled(s, step)
  {
    match step
    case StartLoop(k) => s.(loops := s.loops[k := s.loops[k].Run(k)])
    case Accept(k) => BeginNewConn(s, k)
    case Enter => EnterConn(s)
    case RunTask(k) => Execute(s.(loops := s.loops[k := s.loops[k].Pop()]), s.loops[k].queue[0], k, k)
    case CloseCallback(id) =>
      var k := s.home[id];
      DoRemoveConn(Execute(s, HandleClose(id), k, k), k, id).(closed := s.closed + {id})
    case UserRemove(thread, id) => DoRemoveConn(s, thread, id)
    case UserSend(thread, id) => RunInLoop(s, s.home[id], thread, SendBytes(id))
    case UserClose(id) => var k := s.home[id]; s.(loops := s.loops[k := s.loops[k].QueueInLoop(CloseSocket(id))])
  }

  ghost predicate Runs(s: Server, steps: seq<Step>)
    decreases |steps|
  {
    steps != [] ==> Enabled(s, steps[0]) && Runs(Next(s, steps[0]), steps[1..])
  }

  ghost function After(s: Server, steps: seq<Step>): Server
    requires Runs(s, steps)
    decreases |steps|
  {
    if steps == [] then s else After(Next(s, steps[0]), steps[1..])
  }

  // ------------------------------------------------------------------------------------------------
  // Names
  // ------------------------------------------------------------------------------------------------

  /** Two connections of one server never share a name. */
  lemma NamesAreUnique(s: Server, i: nat, j: nat)
    requires s.ConnName(i) == s.ConnName(j)
    ensures i == j
  {
    var prefix := s.name + "-conn" + "#";
    assert s.ConnName(i)[|prefix|..] == Decimal(i) && s.ConnName(j)[|prefix|..] == Decimal(j);
    DecimalIsInjective(i, j);
  }

  lemma AllNamesAreUnique(s: Server)
    ensures forall i: nat, j: nat :: s.ConnName(i) == s.ConnName(j) ==> i == j
  {
    forall i: nat, j: nat | s.ConnName(i) == s.ConnName(j) ensures i == j {
      NamesAreUnique(s, i, j);
    }
  }

  // ------------------------------------------------------------------------------------------------
  // The invariants
  // ------------------------------------------------------------------------------------------------

  ghost predicate LoopInv(s: Server) {
    |s.loops| > 0 && s.loops[0].running && |s.home| == s.nextConnId &&
    (forall k :: 0 <= k < |s.loops| ==> s.loops[k].tid == if s.loops[k].running then k else 0) &&
    (forall id :: 0 <= id < |s.home| ==> s.home[id] < |s.loops| && (!s.unstarted ==> s.loops[s.home[id]].running))
  }

  /** Accepting and erasing are for the listening loop, everything else for the connection's own. */
  predicate ForListener(task: Task) {
    task.Remove? || task.Accepted?
  }

  predicate Belongs(s: Server, task: Task, k: nat) {
    task.id < |s.home| && k == if ForListener(task) then 0 else s.home[task.id]
  }

  ghost predicate TaskInv(s: Server)
    requires LoopInv(s)
  {
    (forall k, i :: 0 <= k < |s.loops| && 0 <= i < |s.loops[k].queue| ==> Belongs(s, s.loops[k].queue[i], k)) &&
    (forall id :: id in s.attached ==> id < s.nextConnId) &&
    (forall id :: id in s.closed ==> id in s.attached && (id in s.removed || Remove(id) in s.loops[0].queue))
  }

  ghost predicate EntryInv(s: Server) {
    (s.window != Closed ==> s.window.id + 1 == s.nextConnId) &&
    (forall id: nat :: id in s.inserted <==> id < s.nextConnId && s.window != Entering(id)) &&
    s.removed <= s.inserted
  }

  ghost predicate RegistryInv(s: Server) {
    (forall id: nat :: id < s.nextConnId ==> (s.ConnName(id) in s.conns <==> id in s.inserted && id !in s.removed)) &&
    (forall key :: key in s.conns ==> s.conns[key] < s.nextConnId && key == s.ConnName(s.conns[key]))
  }

  ghost predicate RanInv(s: Server) {
    forall r :: r in s.ran ==> Confined(s, r)
  }

  /** The assertion held, and the thread was the right one for it. */
  ghost predicate Confined(s: Server, r: Ran) {
    r.asserted && r.task.id < |s.home| &&
    if ForListener(r.task) then r.thread == 0 else !s.unstarted ==> r.thread == s.home[r.task.id]
  }

  ghost predicate ServerInv(s: Server) {
    LoopInv(s) && TaskInv(s) && EntryInv(s) && RegistryInv(s) && RanInv(s)
  }

  lemma SameNames(s: Server, t: Server)
    requires s.name == t.name
    ensures forall i: nat :: t.ConnName(i) == s.ConnName(i)
  {
  }

  lemma NameIsItsOwn(s: Server, id: nat)
    ensures forall i: nat :: s.ConnName(i) == s.ConnName(id) ==> i == id
  {
    forall i: nat | s.ConnName(i) == s.ConnName(id) ensures i == id {
      NamesAreUnique(s, i, id);
    }
  }

  lemma RemoveKeepsRegistry(s: Server, id: nat)
    requires |s.loops| > 0 && EntryInv(s) && RegistryInv(s) && id < s.nextConnId
    ensures var t := Execute(s, Remove(id), 0, 0); EntryInv(t) && RegistryInv(t)
  {
    var t := Execute(s, Remove(id), 0, 0);
    NameIsItsOwn(s, id);
    SameNames(s, t);
    hide Server.ConnName;
  }

  lemma RemoveKeepsInv(s: Server, id: nat)
    requires ServerInv(s) && id < s.nextConnId
    ensures ServerInv(Execute(s, Remove(id), 0, 0))
  {
    RemoveKeepsRegistry(s, id);
    hide RegistryInv, EntryInv;
  }

  lemma ExecuteKeepsInv(s: Server, task: Task, k: nat, thread: ThreadId)
    requires ServerInv(s) && k < |s.loops| && Belongs(s, task, k) && !task.Remove?
    requires s.loops[k].tid == thread && (thread == k || (s.unstarted && !ForListener(task)))
    ensures ServerInv(Execute(s, task, k, thread))
  {
    SameNames(s, Execute(s, task, k, thread));
    hide Server.ConnName;
  }

  lemma PopKeepsInv(s: Server, k: nat)
    requires ServerInv(s) && k < |s.loops| && s.loops[k].queue != [] && !s.loops[k].queue[0].Remove?
    ensures ServerInv(s.(loops := s.loops[k := s.loops[k].Pop()]))
  {
    SameNames(s, s.(loops := s.loops[k := s.loops[k].Pop()]));
    hide Server.ConnName;
  }

  /** Popping a removal and executing it is one step: in between, a closed connection would be unaccounted for. */
  lemma RunRemoveKeepsInv(s: Server)
    requires ServerInv(s) && s.window == Closed && s.loops[0].queue != [] && s.loops[0].queue[0].Remove?
    ensures ServerInv(Execute(s.(loops := s.loops[0 := s.loops[0].Pop()]), s.loops[0].queue[0], 0, 0))
  {
    var queue, id := s.loops[0].queue, s.loops[0].queue[0].id;
    var u := s.(loops := s.loops[0 := s.loops[0].Pop()]);
    SameNames(s, u);
    assert EntryInv(u) && RegistryInv(u) by { hide Server.ConnName; }
    RemoveKeepsRegistry(u, id);
    hide RegistryInv, Server.ConnName;
    assert queue == [queue[0]] + queue[1..];
    var t := Execute(u, Remove(id), 0, 0);
    assert t.removed == s.removed + {id};
  }

  lemma PostKeepsInv(s: Server, k: nat, task: Task)
    requires ServerInv(s) && k < |s.loops|
    requires Belongs(s, task, k)
    ensures ServerInv(s.(loops := s.loops[k := s.loops[k].QueueInLoop(task)]))
  {
    SameNames(s, s.(loops := s.loops[k := s.loops[k].QueueInLoop(task)]));
    hide Server.ConnName;
  }

  lemma EnterKeepsInv(s: Server)
    requires ServerInv(s) && s.window != Closed
    ensures ServerInv(EnterConn(s))
  {
    AllNamesAreUnique(s);
    SameNames(s, EnterConn(s));
    hide Server.ConnName;
  }

  lemma BeginKeepsInv(s: Server, k: nat)
    requires ServerInv(s) && s.window == Closed && k < |s.loops|
    ensures ServerInv(BeginNewConn(s, k))
  {
    var id := s.nextConnId;
    var t := s.(nextConnId := id + 1, home := s.home + [k], window := Entering(id),
                unstarted := s.unstarted || !s.loops[k].running,
                ran := s.ran + [Ran(Accepted(id), 0, s.loops[0].IsInLoopThread(0))]);
    assert ServerInv(t) by {
      AllNamesAreUnique(s);
      SameNames(s, t);
      hide Server.ConnName;
    }
    hide ServerInv;
    if s.loops[k].tid == 0 {
      ExecuteKeepsInv(t, Attach(id), k, 0);
    } else {
      PostKeepsInv(t, k, Attach(id));
    }
  }

  lemma RemoveConnKeepsInv(s: Server, caller: ThreadId, id: nat)
    requires ServerInv(s) && id < s.nextConnId
    ensures ServerInv(DoRemoveConn(s, caller, id))
    ensures var t := DoRemoveConn(s, caller, id);
      t.attached == s.attached && t.closed == s.closed &&
      (caller != 0 || s.window != Entering(id) ==> id in t.removed || Remove(id) in t.loops[0].queue)
  {
    if caller == 0 {
      RemoveKeepsInv(s, id);
    } else {
      PostKeepsInv(s, 0, Remove(id));
      var queue := s.loops[0].queue;
      assert (queue + [Remove(id)])[|queue|] == Remove(id);
    }
  }

  lemma StepKeepsInv(s: Server, step: Step)
    requires ServerInv(s) && Enabled(s, step)
    ensures ServerInv(Next(s, step))
  {
    hide RegistryInv, RanInv;
    match step
    case StartLoop(k) => StartKeepsInv(s, k);
    case Accept(k) => BeginKeepsInv(s, k);
    case Enter => EnterKeepsInv(s);
    case RunTask(k) =>
      var task := s.loops[k].queue[0];
      if task.Remove? {
        RunRemoveKeepsInv(s);
      } else {
        PopKeepsInv(s, k);
        ExecuteKeepsInv(s.(loops := s.loops[k := s.loops[k].Pop()]), task, k, k);
      }
    case CloseCallback(id) => CloseKeepsInv(s, id);
    case UserRemove(thread, id) => RemoveConnKeepsInv(s, thread, id);
    case UserSend(thread, id) => SendKeepsInv(s, thread, id);
    case UserClose(id) => PostKeepsInv(s, s.home[id], CloseSocket(id));
  }

  lemma StartKeepsInv(s: Server, k: nat)
    requires ServerInv(s) && Enabled(s, StartLoop(k))
    ensures ServerInv(Next(s, StartLoop(k)))
  {
    SameNames(s, Next(s, StartLoop(k)));
    hide Server.ConnName;
  }

  lemma SendKeepsInv(s: Server, thread: ThreadId, id: nat)
    requires ServerInv(s) && id < s.nextConnId
    ensures ServerInv(RunInLoop(s, s.home[id], thread, SendBytes(id)))
  {
    hide RegistryInv, RanInv, EntryInv;
    var k := s.home[id];
    if s.loops[k].tid == thread {
      ExecuteKeepsInv(s, SendBytes(id), k, thread);
    } else {
      PostKeepsInv(s, k, SendBytes(id));
    }
  }

  lemma ClosedKeepsInv(s: Server, id: nat)
    requires ServerInv(s) && id in s.attached && (id in s.removed || Remove(id) in s.loops[0].queue)
    ensures ServerInv(s.(closed := s.closed + {id}))
  {
    SameNames(s, s.(closed := s.closed + {id}));
    hide Server.ConnName;
  }

  lemma CloseKeepsInv(s: Server, id: nat)
    requires ServerInv(s) && Enabled(s, CloseCallback(id))
    ensures ServerInv(Next(s, CloseCallback(id)))
  {
    hide RegistryInv, RanInv, EntryInv;
    var k := s.home[id];
    var u := Execute(s, HandleClose(id), k, k);
    ExecuteKeepsInv(s, HandleClose(id), k, k);
    assert k == 0 ==> u.window == Closed;
    hide Execute, RunInLoop, DoRemoveConn;
    RemoveConnKeepsInv(u, k, id);
    hide ServerInv;
    ClosedKeepsInv(DoRemoveConn(u, k, id), id);
  }

  lemma {:induction false} RunsKeepInv(s: Server, steps: seq<Step>)
    requires Runs(s, steps) && ServerInv(s)
    ensures ServerInv(After(s, steps))
    decreases |steps|
  {
    if steps != [] {
      hide ServerInv, Enabled, Next;
      StepKeepsInv(s, steps[0]);
      RunsKeepInv(Next(s, steps[0]), steps[1..]);
    }
  }

  lemma InitHasInv(name: string, workers: nat)
    ensures ServerInv(Init(name, workers))
  {
  }

  // ------------------------------------------------------------------------------------------------
  // The theorems
  // ------------------------------------------------------------------------------------------------

  /** In every interleaving, conns_ holds exactly the connections entered and not yet erased since. */
  lemma RegistryAgrees(name: string, workers: nat, steps: seq<Step>, id: nat)
    requires Runs(Init(name, workers), steps)
    ensures var s := After(Init(name, workers), steps);
      (s.ConnName(id) in s.conns <==> id in s.inserted && id !in s.removed) &&
      (s.ConnName(id) in s.conns ==> s.conns[s.ConnName(id)] == id)
  {
    InitHasInv(name, workers);
    RunsKeepInv(Init(name, workers), steps);
    var s := After(Init(name, workers), steps);
    AllNamesAreUnique(s);
    hide Server.ConnName, Init;
  }

  lemma RemovedStays(s: Server, step: Step, id: nat)
    requires Enabled(s, step) && id in s.removed
    ensures id in Next(s, step).removed && Next(s, step).name == s.name
  {
    hide Server.ConnName;
  }

  /** Once erased, a connection never comes back. */
  lemma {:induction false} ErasedForGood(s: Server, steps: seq<Step>, id: nat)
    requires Runs(s, steps) && ServerInv(s) && id in s.removed
    ensures id in After(s, steps).removed && s.ConnName(id) !in After(s, steps).conns
    decreases |steps|
  {
    if steps == [] {
      hide Next, Enabled;
    } else {
      StepKeepsInv(s, steps[0]);
      RemovedStays(s, steps[0], id);
      hide ServerInv, Next, Enabled;
      SameNames(s, Next(s, steps[0]));
      hide Server.ConnName;
      ErasedForGood(Next(s, steps[0]), steps[1..], id);
    }
  }

  /**
   A connection is erased before it is entered in exactly one way: RemoveConn called by user code on the
   listening thread, from inside the attachment that HandleNewConn runs inline.  The library's own close
   callback never does it.
   */
  lemma EarlyRemovalIff(s: Server, step: Step)
    requires ServerInv(s) && Enabled(s, step)
    ensures Next(s, step).early ==
            if step.UserRemove? && step.thread == 0 && s.window == Entering(step.id) then s.early + {step.id} else s.early
  {
    if step.RunTask? && s.loops[step.k].queue[0].Remove? {
      assert s.loops[step.k].queue[0].id < s.nextConnId;
    }
    hide RegistryInv, RanInv;
  }

  /** Every connection has been closed by its loop, and the listening loop has nothing left to do. */
  ghost predicate Drained(s: Server) {
    s.window == Closed && s.loops != [] && s.loops[0].queue == [] &&
    forall id: nat :: id < s.nextConnId ==> id in s.closed
  }

  lemma DrainedRegistryIsEmpty(name: string, workers: nat, steps: seq<Step>)
    requires Runs(Init(name, workers), steps) && Drained(After(Init(name, workers), steps))
    ensures After(Init(name, workers), steps).conns == map[]
  {
    InitHasInv(name, workers);
    RunsKeepInv(Init(name, workers), steps);
    var s := After(Init(name, workers), steps);
    hide Server.ConnName, Init;
    forall id: nat | id < s.nextConnId ensures s.ConnName(id) !in s.conns {
      assert id in s.removed;
    }
    assert s.conns.Keys == {};
  }

  /**
   Thread confinement: no loop-thread assertion ever fails - of HandleNewConn, OnAttachedToLoop, SendInLoop,
   the socket's close, HandleClose or an erasure; accepting and erasing run on the listening thread; and if
   worker loops were started before use, everything else runs on the thread of the connection's loop.
   */
  lemma TasksAreConfined(name: string, workers: nat, steps: seq<Step>, r: Ran)
    requires Runs(Init(name, workers), steps) && r in After(Init(name, workers), steps).ran
    ensures var s := After(Init(name, workers), steps);
      r.asserted && r.task.id < |s.home| &&
      (ForListener(r.task) ==> r.thread == 0) &&
      (!ForListener(r.task) && !s.unstarted ==> r.thread == s.home[r.task.id])
  {
    InitHasInv(name, workers);
    RunsKeepInv(Init(name, workers), steps);
    hide Init;
    assert Confined(After(Init(name, workers), steps), r);
  }

  ghost predicate Misplaced(s: Server, r: Ran) {
    r.task.Attach? && r.task.id < |s.home| && r.thread != s.home[r.task.id]
  }

  ghost predicate SomeMisplaced(s: Server) {
    exists r :: r in s.ran && Misplaced(s, r)
  }

  lemma StepKeepsMisplaced(s: Server, step: Step)
    requires ServerInv(s) && Enabled(s, step) && (s.unstarted ==> SomeMisplaced(s))
    ensures Next(s, step).unstarted ==> SomeMisplaced(Next(s, step))
  {
    hide TaskInv, EntryInv, RegistryInv, RanInv, Server.ConnName;
    var n := Next(s, step);
    assert s.ran <= n.ran && s.home <= n.home;
    if s.unstarted {
      var r :| r in s.ran && Misplaced(s, r);
      assert r in n.ran && Misplaced(n, r);
    } else if n.unstarted {
      var ran := Ran(Attach(s.nextConnId), 0, true);
      assert n.ran[|n.ran| - 1] == ran && Misplaced(n, ran);
    }
  }

  lemma {:induction false} RunsKeepMisplaced(s: Server, steps: seq<Step>)
    requires Runs(s, steps) && ServerInv(s) && (s.unstarted ==> SomeMisplaced(s))
    ensures After(s, steps).unstarted ==> SomeMisplaced(After(s, steps))
    decreases |steps|
  {
    if steps != [] {
      hide ServerInv, Enabled, Next, SomeMisplaced;
      StepKeepsInv(s, steps[0]);
      StepKeepsMisplaced(s, steps[0]);
      RunsKeepMisplaced(Next(s, steps[0]), steps[1..]);
    }
  }

  /**
   The condition is exact, over all runs: some attachment has run on another thread than that of the connection's
   loop if and only if some connection was given to a loop not yet started.
   */
  lemma MisplacedIffUnstarted(name: string, workers: nat, steps: seq<Step>)
    requires Runs(Init(name, workers), steps)
    ensures var s := After(Init(name, workers), steps); s.unstarted <==> SomeMisplaced(s)
  {
    InitHasInv(name, workers);
    RunsKeepMisplaced(Init(name, workers), steps);
    var s := After(Init(name, workers), steps);
    forall r | r in s.ran && Misplaced(s, r) ensures s.unstarted {
      TasksAreConfined(name, workers, steps, r);
    }
  }

  /** Such a run, on which no assertion notices: on a loop not yet started the attachment runs on the wrong thread. */
  lemma UnstartedLoopMisplacesAttach(name: string)
    ensures var steps := [Accept(1)];
      Runs(Init(name, 1), steps) &&
      var s := After(Init(name, 1), steps);
      s.home == [1] && s.ran == [Ran(Accepted(0), 0, true), Ran(Attach(0), 0, true)]
  {
    var s := Init(name, 1);
    assert [Accept(1)][1..] == [];
    assert Runs(Next(s, Accept(1)), []);
  }

  /** With no workers, RemoveConn from inside the connect callback is lost: the entry is made afterwards. */
  lemma RemoveInConnectCallbackIsLost(name: string)
    ensures var steps := [Accept(0), UserRemove(0, 0), Enter];
      Runs(Init(name, 0), steps) &&
      var s := After(Init(name, 0), steps);
      s.early == {0} && s.ConnName(0) in s.conns
  {
    var s0 := Init(name, 0);
    var s1 := Next(s0, Accept(0));
    var s2 := Next(s1, UserRemove(0, 0));
    var s3 := Next(s2, Enter);
    assert [Accept(0), UserRemove(0, 0), Enter][1..] == [UserRemove(0, 0), Enter];
    assert [UserRemove(0, 0), Enter][1..] == [Enter];
    assert [Enter][1..] == [];
    assert Runs(s3, []) && Runs(s2, [Enter]) && Runs(s1, [UserRemove(0, 0), Enter]);
  }

  // ------------------------------------------------------------------------------------------------
  // Nothing handed over is lost
  // ------------------------------------------------------------------------------------------------

  function Queued(queue: seq<Task>, task: Task): nat {
    if queue == [] then 0 else Queued(queue[..|queue| - 1], task) + if queue[|queue| - 1] == task then 1 else 0
  }

  function TimesRun(ran: seq<Ran>, task: Task): nat {
    if ran == [] then 0 else TimesRun(ran[..|ran| - 1], task) + if ran[|ran| - 1].task == task then 1 else 0
  }

  lemma QueuedSnoc(queue: seq<Task>, t: Task, task: Task)
    ensures Queued(queue + [t], task) == Queued(queue, task) + if t == task then 1 else 0
  {
    assert (queue + [t])[..|queue|] == queue;
  }

  lemma {:induction false} QueuedHead(queue: seq<Task>, task: Task)
    requires queue != []
    ensures Queued(queue, task) == Queued(queue[1..], task) + if queue[0] == task then 1 else 0
  {
    if |queue| > 1 {
      var n := |queue| - 1;
      QueuedHead(queue[..n], task);
      assert queue[1..][..n - 1] == queue[..n][1..];
    }
  }

  lemma TimesRunSnoc(ran: seq<Ran>, r: Ran, task: Task)
    ensures TimesRun(ran + [r], task) == TimesRun(ran, task) + if r.task == task then 1 else 0
  {
    assert (ran + [r])[..|ran|] == ran;
  }

  lemma {:induction false} NeverQueued(queue: seq<Task>, task: Task)
    requires forall i :: 0 <= i < |queue| ==> queue[i] != task
    ensures Queued(queue, task) == 0
  {
    if queue != [] {
      NeverQueued(queue[..|queue| - 1], task);
    }
  }

  lemma {:induction false} NeverRun(ran: seq<Ran>, task: Task)
    requires forall r :: r in ran ==> r.task != task
    ensures TimesRun(ran, task) == 0
  {
    if ran != [] {
      assert ran[|ran| - 1] in ran && forall r :: r in ran[..|ran| - 1] ==> r in ran;
      NeverRun(ran[..|ran| - 1], task);
    }
  }

  /** The attachment of a connection is queued on its loop or has run, once, and the set agrees. */
  ghost predicate AttachInv(s: Server, id: nat) {
    id < |s.home| && s.home[id] < |s.loops| ==>
      Queued(s.loops[s.home[id]].queue, Attach(id)) + TimesRun(s.ran, Attach(id)) == 1 &&
      (id in s.attached <==> TimesRun(s.ran, Attach(id)) == 1)
  }

  lemma ExecuteKeepsAttach(s: Server, task: Task, k: nat, thread: ThreadId, id: nat)
    requires LoopInv(s) && k < |s.loops| && id < |s.home|
    requires Queued(s.loops[s.home[id]].queue, Attach(id)) + TimesRun(s.ran, Attach(id)) == if task == Attach(id) then 0 else 1
    requires id in s.attached <==> TimesRun(s.ran, Attach(id)) == 1
    ensures AttachInv(Execute(s, task, k, thread), id)
  {
    TimesRunSnoc(s.ran, Ran(task, thread, s.loops[k].IsInLoopThread(thread)), Attach(id));
    hide Queued, TimesRun, Server.ConnName;
  }

  lemma QueueKeepsAttach(s: Server, k: nat, task: Task, id: nat)
    requires LoopInv(s) && k < |s.loops| && id < |s.home| && (task == Attach(id) ==> k == s.home[id])
    requires Queued(s.loops[s.home[id]].queue, Attach(id)) + TimesRun(s.ran, Attach(id)) == if task == Attach(id) then 0 else 1
    requires id in s.attached <==> TimesRun(s.ran, Attach(id)) == 1
    ensures AttachInv(s.(loops := s.loops[k := s.loops[k].QueueInLoop(task)]), id)
  {
    QueuedSnoc(s.loops[k].queue, task, Attach(id));
    hide Queued, TimesRun, Server.ConnName;
  }

  lemma HandOverKeepsAttach(s: Server, k: nat, caller: ThreadId, task: Task, id: nat)
    requires LoopInv(s) && k < |s.loops| && id < |s.home| && (task == Attach(id) ==> k == s.home[id])
    requires Queued(s.loops[s.home[id]].queue, Attach(id)) + TimesRun(s.ran, Attach(id)) == if task == Attach(id) then 0 else 1
    requires id in s.attached <==> TimesRun(s.ran, Attach(id)) == 1
    ensures AttachInv(RunInLoop(s, k, caller, task), id)
  {
    if s.loops[k].tid == caller {
      ExecuteKeepsAttach(s, task, k, caller, id);
    } else {
      QueueKeepsAttach(s, k, task, id);
    }
    hide Execute, AttachInv, Queued, TimesRun;
  }

  lemma FreshIsNowhere(s: Server)
    requires ServerInv(s)
    ensures forall k :: 0 <= k < |s.loops| ==> Queued(s.loops[k].queue, Attach(s.nextConnId)) == 0
    ensures TimesRun(s.ran, Attach(s.nextConnId)) == 0 && s.nextConnId !in s.attached
  {
    var task := Attach(s.nextConnId);
    forall k | 0 <= k < |s.loops| ensures Queued(s.loops[k].queue, task) == 0 {
      forall i | 0 <= i < |s.loops[k].queue| ensures s.loops[k].queue[i] != task {
        assert Belongs(s, s.loops[k].queue[i], k);
      }
      NeverQueued(s.loops[k].queue, task);
    }
    forall r | r in s.ran ensures r.task != task {
      assert Confined(s, r);
    }
    NeverRun(s.ran, task);
  }

  lemma BeginKeepsAttach(s: Server, k: nat, id: nat)
    requires ServerInv(s) && k < |s.loops| && (id < s.nextConnId ==> AttachInv(s, id))
    ensures AttachInv(BeginNewConn(s, k), id)
  {
    FreshIsNowhere(s);
    var next := s.nextConnId;
    var r := Ran(Accepted(next), 0, s.loops[0].IsInLoopThread(0));
    var t := s.(nextConnId := next + 1, home := s.home + [k], window := Entering(next),
                unstarted := s.unstarted || !s.loops[k].running, ran := s.ran + [r]);
    TimesRunSnoc(s.ran, r, Attach(id));
    assert BeginNewConn(s, k) == RunInLoop(t, k, 0, Attach(next));
    if id <= next {
      assert id < next ==> t.home[id] == s.home[id];
      hide Queued, TimesRun, RunInLoop, BeginNewConn, TaskInv, EntryInv, RegistryInv, RanInv;
      HandOverKeepsAttach(t, k, 0, Attach(next), id);
    } else {
      HandOverKeepsHome(t, k, 0, Attach(next));
    }
  }

  lemma HandOverKeepsHome(s: Server, k: nat, caller: ThreadId, task: Task)
    requires k < |s.loops|
    ensures RunInLoop(s, k, caller, task).home == s.home
  {
  }

  lemma RunTaskKeepsAttach(s: Server, k: nat, id: nat)
    requires ServerInv(s) && Enabled(s, RunTask(k)) && AttachInv(s, id)
    ensures AttachInv(Next(s, RunTask(k)), id)
  {
    var queue := s.loops[k].queue;
    var t := s.(loops := s.loops[k := s.loops[k].Pop()]);
    QueuedHead(queue, Attach(id));
    assert Belongs(s, queue[0], k);
    if id < |s.home| {
      assert LoopInv(t);
      assert queue[0] == Attach(id) ==> s.home[id] == k;
      hide Queued, TimesRun, TaskInv, EntryInv, RegistryInv, RanInv;
      ExecuteKeepsAttach(t, queue[0], k, k, id);
    } else {
      ExecuteKeepsHome(t, queue[0], k, k);
    }
  }

  lemma ExecuteKeepsHome(s: Server, task: Task, k: nat, thread: ThreadId)
    requires k < |s.loops|
    ensures Execute(s, task, k, thread).home == s.home
  {
  }

  lemma StepKeepsAttach(s: Server, step: Step, id: nat)
    requires ServerInv(s) && Enabled(s, step) && AttachInv(s, id)
    ensures AttachInv(Next(s, step), id)
  {
    hide TaskInv, EntryInv, RegistryInv, RanInv, Queued, TimesRun, Server.ConnName;
    match step
    case StartLoop(k) =>
    case Accept(k) => BeginKeepsAttach(s, k, id);
    case Enter =>
    case RunTask(k) => RunTaskKeepsAttach(s, k, id);
    case CloseCallback(c) => CloseKeepsAttach(s, c, id);
    case UserRemove(thread, c) => OtherKeepsAttach(s, 0, thread, Remove(c), id);
    case UserSend(thread, c) => OtherKeepsAttach(s, s.home[c], thread, SendBytes(c), id);
    case UserClose(c) =>
      if id < |s.home| {
        QueueKeepsAttach(s, s.home[c], CloseSocket(c), id);
      }
  }

  lemma OtherKeepsAttach(s: Server, k: nat, caller: ThreadId, task: Task, id: nat)
    requires LoopInv(s) && k < |s.loops| && AttachInv(s, id) && !task.Attach?
    ensures AttachInv(RunInLoop(s, k, caller, task), id)
  {
    if id < |s.home| {
      HandOverKeepsAttach(s, k, caller, task, id);
    } else {
      HandOverKeepsHome(s, k, caller, task);
    }
    hide RunInLoop, Queued, TimesRun;
  }

  lemma CloseKeepsAttach(s: Server, c: nat, id: nat)
    requires ServerInv(s) && Enabled(s, CloseCallback(c)) && AttachInv(s, id)
    ensures AttachInv(Next(s, CloseCallback(c)), id)
  {
    var k := s.home[c];
    var u := Execute(s, HandleClose(c), k, k);
    assert LoopInv(u);
    if id < |s.home| {
      ExecuteKeepsAttach(s, HandleClose(c), k, k, id);
    } else {
      ExecuteKeepsHome(s, HandleClose(c), k, k);
    }
    hide Execute, RunInLoop, Queued, TimesRun, TaskInv, EntryInv, RegistryInv, RanInv, Server.ConnName;
    OtherKeepsAttach(u, 0, k, Remove(c), id);
  }

  lemma {:induction false} RunsKeepAttach(s: Server, steps: seq<Step>, id: nat)
    requires Runs(s, steps) && ServerInv(s) && AttachInv(s, id)
    ensures AttachInv(After(s, steps), id)
    decreases |steps|
  {
    if steps != [] {
      hide ServerInv, Enabled, Next, AttachInv;
      StepKeepsInv(s, steps[0]);
      StepKeepsAttach(s, steps[0], id);
      RunsKeepAttach(Next(s, steps[0]), steps[1..], id);
    }
  }

  /**
   Every connection handed out is attached exactly once: on every run its attachment either is queued, once, on
   its own loop, or has run, once - so a loop that has drained its queue has attached all its connections.
   */
  lemma AttachedExactlyOnce(name: string, workers: nat, steps: seq<Step>, id: nat)
    requires Runs(Init(name, workers), steps) && id < After(Init(name, workers), steps).nextConnId
    ensures var s := After(Init(name, workers), steps);
      id < |s.home| && s.home[id] < |s.loops| &&
      var queue := s.loops[s.home[id]].queue;
      Queued(queue, Attach(id)) + TimesRun(s.ran, Attach(id)) == 1 &&
      (id in s.attached <==> TimesRun(s.ran, Attach(id)) == 1) &&
      (queue == [] ==> id in s.attached)
  {
    InitHasInv(name, workers);
    RunsKeepInv(Init(name, workers), steps);
    assert AttachInv(Init(name, workers), id);
    hide Init, TaskInv, EntryInv, RegistryInv, RanInv;
    RunsKeepAttach(Init(name, workers), steps, id);
  }

  ghost predicate Taken(s: Server, t: Server, k: nat, caller: ThreadId, task: Task) {
    k < |s.loops| && |t.loops| == |s.loops| &&
    if s.loops[k].tid == caller then t.loops == s.loops && t.ran == s.ran + [Ran(task, caller, true)]
    else t.ran == s.ran && t.loops == s.loops[k := t.loops[k]] && t.loops[k].queue == s.loops[k].queue + [task]
  }

  /** What a caller asks of a connection or the registry runs at once, or is queued on the right loop, behind the rest. */
  lemma RequestsAreTaken(s: Server, step: Step)
    requires ServerInv(s) && Enabled(s, step)
    ensures step.UserRemove? ==> Taken(s, Next(s, step), 0, step.thread, Remove(step.id))
    ensures step.UserSend? ==> Taken(s, Next(s, step), s.home[step.id], step.thread, SendBytes(step.id))
    ensures step.UserClose? ==>
      var k := s.home[step.id];
      Next(s, step) == s.(loops := Next(s, step).loops) && |Next(s, step).loops| == |s.loops| &&
      Next(s, step).loops == s.loops[k := Next(s, step).loops[k]] &&
      Next(s, step).loops[k].queue == s.loops[k].queue + [CloseSocket(step.id)]
    ensures step.StartLoop? ==>
      |Next(s, step).loops| == |s.loops| && Next(s, step).loops[step.k].running && Next(s, step).loops[step.k].tid == step.k
  {
    hide TaskInv, EntryInv, RegistryInv, RanInv, Server.ConnName;
  }

  /** An erasure takes the named entry out of the registry and no other. */
  lemma EraseTakesOne(s: Server, k: nat, thread: ThreadId, id: nat, other: nat)
    requires k < |s.loops|
    ensures var t := Execute(s, Remove(id), k, thread);
      s.ConnName(id) !in t.conns && t.nextConnId == s.nextConnId &&
      (other != id ==> (s.ConnName(other) in t.conns <==> s.ConnName(other) in s.conns))
  {
    if s.ConnName(other) == s.ConnName(id) {
      NamesAreUnique(s, other, id);
    }
    hide Server.ConnName;
  }

  // ------------------------------------------------------------------------------------------------
  // The object
  // ------------------------------------------------------------------------------------------------

  class TCPServer {
    const name: string
    const loops: seq<EventLoop<Task>>
    var nextConnId: nat
    var conns: map<string, nat>
    ghost var home: seq<nat>
    ghost var attached: set<nat>
    ghost var closed: set<nat>
    ghost var inserted: set<nat>
    ghost var removed: set<nat>
    ghost var early: set<nat>
    ghost var unstarted: bool
    ghost var ran: seq<Ran>

    ghost predicate Valid() {
      |loops| > 0 && forall i, j :: 0 <= i < j < |loops| ==> loops[i] != loops[j]
    }

    ghost function Loops(): (ls: seq<Loop<Task>>)
      reads loops
      ensures |ls| == |loops| && forall k :: 0 <= k < |ls| ==> ls[k] == loops[k].State()
    {
      seq(|loops|, k requires 0 <= k < |loops| reads loops => loops[k].State())
    }

    ghost function State(window: Window): Server
      reads this, loops
    {
      Server(name, Loops(), nextConnId, conns, window, home, attached, closed, inserted, removed, early, unstarted, ran)
    }

    constructor (name: string, loops: seq<EventLoop<Task>>)
      requires |loops| > 0 && forall i, j :: 0 <= i < j < |loops| ==> loops[i] != loops[j]
      ensures Valid() && this.loops == loops && this.name == name
      ensures nextConnId == 0 && conns == map[] && ran == []
    {
      this.name, this.loops := name, loops;
      nextConnId, conns, home := 0, map[], [];
      attached, closed, inserted, removed, early, unstarted, ran := {}, {}, {}, {}, {}, false, [];
    }

    method RunAttach(id: nat, k: nat, thread: ThreadId)
      requires Valid() && k < |loops|
      modifies this`attached, this`ran
      ensures forall w :: State(w) == Execute(old(State(w)), Attach(id), k, thread)
    {
      ran := ran + [Ran(Attach(id), thread, loops[k].IsInLoopThread(thread))];
      attached := attached + {id};
      assert Loops() == old(Loops());
    }

    /** The body of the lambda that RemoveConn posts. */
    method Erase(id: nat, thread: ThreadId)
      requires Valid()
      modifies this`conns, this`removed, this`early, this`ran
      ensures forall w :: State(w) == Execute(old(State(w)), Remove(id), 0, thread)
    {
      ran := ran + [Ran(Remove(id), thread, loops[0].IsInLoopThread(thread))];
      conns := conns - {name + "-conn" + "#" + Decimal(id)};
      if id in inserted {
        removed := removed + {id};
      } else {
        early := early + {id};
      }
      assert Loops() == old(Loops());
    }

    method RemoveConn(caller: ThreadId, id: nat)
      requires Valid()
      modifies this, loops[0]
      ensures forall w :: State(w) == DoRemoveConn(old(State(w)), caller, id)
    {
      var now := loops[0].RunInLoop(caller, Remove(id));
      assert Loops() == old(Loops())[0 := old(Loops()[0]).RunInLoop(caller, Remove(id)).1];
      if now != [] {
        assert Loops() == old(Loops());
        Erase(id, caller);
      }
    }

    /** loop->RunInLoop(OnAttachedToLoop) */
    method AttachOn(k: nat, id: nat)
      requires Valid() && k < |loops|
      modifies this`attached, this`ran, loops[k]
      ensures forall w :: State(w) == RunInLoop(old(State(w)), k, 0, Attach(id))
    {
      var now := loops[k].RunInLoop(0, Attach(id));
      assert Loops() == old(Loops())[k := old(Loops()[k]).RunInLoop(0, Attach(id)).1];
      if now != [] {
        assert Loops() == old(Loops());
        RunAttach(id, k, 0);
      }
    }

    /** Called by the accept handler on the listening thread; nothing else runs on this thread meanwhile. */
    method HandleNewConn(k: nat)
      requires Valid() && k < |loops|
      modifies this, loops[k]
      ensures State(Closed) == EnterConn(BeginNewConn(old(State(Closed)), k))
    {
      ghost var s := State(Closed);
      hide Execute, Server.ConnName, RunInLoop;
      var id := nextConnId;
      var cn := name + "-conn" + "#" + Decimal(id);
      nextConnId := nextConnId + 1;
      home := home + [k];
      unstarted := unstarted || !loops[k].running;
      ran := ran + [Ran(Accepted(id), 0, loops[0].IsInLoopThread(0))];
      AttachOn(k, id);
      ghost var u := State(Entering(id));
      assert u == BeginNewConn(s, k);
      conns := conns[cn := id];
      inserted := inserted + {id};
      assert Loops() == u.loops;
      assert cn == u.ConnName(id) by { NameOf(u, id); }
    }
  }

  lemma NameOf(s: Server, id: nat)
    ensures s.ConnName(id) == s.name + "-conn" + "#" + Decimal(id)
  {
  }
}
