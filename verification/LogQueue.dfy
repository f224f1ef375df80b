/**
 The asynchronous logger (examples/tcp_cereal_packet/utility/log4z.cpp) as a machine: client threads make,
 filter and queue records; the logger thread (thread 0) pops them.  Changes of settings either take effect
 at once, when they only let more through, or travel in the same queue as the records.

 A step is what one thread does under the lock, or between two uses of it.  LogData objects are identified
 by a number; the free list keeps numbers.
 */
module LogQueues {

  const LOGGER_MAX: nat := 20
  const FREE_LIMIT: nat := 200

  datatype Settings = Settings(enable: bool, level: int, name: string, path: string, display: bool, outfile: bool,
                               monthdir: bool, limitsize: int, reservedays: int, fileLine: bool)

  const DEFAULT_SETTINGS := Settings(false, 1, "", "./log/", true, true, false, 100, 7, true)

  datatype Change =
    | SetEnable(on: bool)
    | SetName(text: string)
    | SetPath(text: string)
    | SetLevel(level: int)
    | SetFileLine(on: bool)
    | SetDisplay(on: bool)
    | SetOutFile(on: bool)
    | SetLimitSize(size: int)
    | SetMonthDir(on: bool)
    | SetReserveDays(days: int)

  /** onHotChange */
  function Apply(s: Settings, c: Change): Settings {
    match c
    case SetEnable(on) => s.(enable := on)
    case SetName(text) => s.(name := text)
    case SetPath(text) => s.(path := text)
    case SetLevel(level) => s.(level := level)
    case SetFileLine(on) => s.(fileLine := on)
    case SetDisplay(on) => s.(display := on)
    case SetOutFile(on) => s.(outfile := on)
    case SetLimitSize(size) => s.(limitsize := size)
    case SetMonthDir(on) => s.(monthdir := on)
    case SetReserveDays(days) => s.(reservedays := days)
  }

  /** The attribute that c is about has the value that c gives it. */
  predicate Takes(s: Settings, c: Change) {
    match c
    case SetEnable(on) => s.enable <==> on
    case SetName(text) => s.name == text
    case SetPath(text) => s.path == text
    case SetLevel(level) => s.level == level
    case SetFileLine(on) => s.fileLine <==> on
    case SetDisplay(on) => s.display <==> on
    case SetOutFile(on) => s.outfile <==> on
    case SetLimitSize(size) => s.limitsize == size
    case SetMonthDir(on) => s.monthdir <==> on
    case SetReserveDays(days) => s.reservedays == days
  }

  /** All the other attributes agree. */
  predicate SameElsewhere(s: Settings, t: Settings, c: Change) {
    (c.SetEnable? || s.enable == t.enable) && (c.SetName? || s.name == t.name) && (c.SetPath? || s.path == t.path) &&
    (c.SetLevel? || s.level == t.level) && (c.SetFileLine? || s.fileLine == t.fileLine) &&
    (c.SetDisplay? || s.display == t.display) && (c.SetOutFile? || s.outfile == t.outfile) &&
    (c.SetLimitSize? || s.limitsize == t.limitsize) && (c.SetMonthDir? || s.monthdir == t.monthdir) &&
    (c.SetReserveDays? || s.reservedays == t.reservedays)
  }

  /** A change gives its attribute the value it carries and leaves the other nine alone. */
  lemma ApplySetsOne(s: Settings, c: Change)
    ensures Takes(Apply(s, c), c) && SameElsewhere(Apply(s, c), s, c)
  {
  }

  /** The filter of pushLog, and again of run. */
  predicate Accepts(s: Settings, level: int) {
    s.enable && s.level <= level
  }

  /** `promise` is history: the settings in effect for the record when it was queued. */
  datatype Body = General(level: int, text: string, promise: Settings) | Hot(change: Change)

  /** `serial` is history: the number of the call it was made for. */
  datatype LogData = LogData(ptr: nat, id: int, body: Body, serial: nat)

  /** One call of makeLogData: by which thread, for which logger, with what. */
  datatype Call = Call(t: nat, id: int, body: Body)

  /** Equal but for the promise, which is history. */
  predicate SameContent(a: Body, b: Body) {
    match a
    case General(level, text, _) => b.General? && b.level == level && b.text == text
    case Hot(change) => b == Hot(change)
  }

  predicate SameEntry(a: LogData, b: LogData) {
    a.ptr == b.ptr && a.id == b.id && a.serial == b.serial && SameContent(a.body, b.body)
  }

  /** Where a thread is, and the LogData in its hand. */
  datatype Thread =
    | Idle
    | Holding(d: LogData)      // made, not yet filtered; or a change about to be queued
    | Passed(d: LogData)       // through pushLog's filter, before the lock
    | Got(d: LogData)          // popped by the logger thread
    | Discarding(d: LogData)   // in freeLogData, before its size check
    | Returning(d: LogData)    // in freeLogData, past its size check

  /** A popped record and the settings it met. */
  datatype Outcome = Outcome(d: LogData, met: Settings)

  datatype History = History(
    pushed: seq<LogData>,    // the records queued, in order
    popped: seq<Outcome>,    // the records popped, in order
    pushCount: nat,          // _ullStatusTotalPushLog
    popCount: nat,           // _ullStatusTotalPopLog
    changed: bool,           // a setter called after stop() changed, at once, a logger with a pending record
    overtaken: bool,         // and one did so in a way that turns away a record its logger was going to accept
    atExit: seq<LogData>,    // the records queued when run returned
    cleanExit: bool)         // nobody was between pushLog's filter and its lock when run returned

  datatype Manager = Manager(
    running: bool,
    exited: bool,
    loggers: seq<Settings>,
    lastId: nat,
    queue: seq<LogData>,
    free: seq<nat>,
    threads: seq<Thread>,
    made: nat,               // objects allocated so far
    deleted: set<nat>,
    calls: seq<Call>,        // history
    log: History)

  datatype Step =
    | Make(t: nat, id: int, level: int, text: string, reuse: bool)
    | MakeChange(t: nat, id: int, change: Change, reuse: bool)
    | Filter(t: nat)
    | Enqueue(t: nat)
    | SizeCheck(t: nat)
    | Return(t: nat)
    | EnableNow(id: int)
    | LevelNow(id: int, level: int)
    | ChangeNow(id: int, change: Change)
    | CreateLogger(key: string)
    | Pop
    | Process
    | Stop
    | Exit

  ghost predicate WellFormed(m: Manager) {
    |m.loggers| == LOGGER_MAX && m.lastId < LOGGER_MAX && |m.threads| > 0
  }

  predicate InRange(m: Manager, id: int) {
    0 <= id <= m.lastId
  }

  ghost predicate Enabled(m: Manager, s: Step)
    requires WellFormed(m)
  {
    match s
    // the check that the free list is not empty is made outside the lock, so either outcome may be stale
    case Make(t, id, level, text, reuse) => t < |m.threads| && m.threads[t] == Idle && (reuse ==> m.free != [])
    case MakeChange(t, id, change, reuse) =>
      t < |m.threads| && m.threads[t] == Idle && (reuse ==> m.free != []) && InRange(m, id) && m.running
    case Filter(t) => t < |m.threads| && m.threads[t].Holding? && m.threads[t].d.body.General?
    case Enqueue(t) => t < |m.threads| && (m.threads[t].Passed? || (m.threads[t].Holding? && m.threads[t].d.body.Hot?))
    case SizeCheck(t) => t < |m.threads| && m.threads[t].Discarding?
    case Return(t) => t < |m.threads| && m.threads[t].Returning?
    case EnableNow(id) => InRange(m, id)
    case LevelNow(id, level) => InRange(m, id) && level <= m.loggers[id].level
    case ChangeNow(id, _) => InRange(m, id) && !m.running
    case CreateLogger(_) => m.lastId + 1 < LOGGER_MAX
    case Pop => m.threads[0] == Idle && !m.exited && m.queue != []
    case Process => m.threads[0].Got?
    case Stop => true
    case Exit => m.threads[0] == Idle && !m.exited && !m.running && m.queue == []
  }

  // ---- effective settings ----

  function ChangesOf(d: LogData, id: int, s: Settings): Settings {
    if d.id == id && d.body.Hot? then Apply(s, d.body.change) else s
  }

  /** Settings after the queued changes of logger id have been applied, in order. */
  function Fold(pending: seq<LogData>, id: int, s: Settings): Settings {
    if pending == [] then s else Fold(pending[1..], id, ChangesOf(pending[0], id, s))
  }

  /** What the logger thread has yet to deal with: the entry in its hand, then the queue. */
  function Pending(m: Manager): seq<LogData>
    requires |m.threads| > 0
  {
    (if m.threads[0].Got? then [m.threads[0].d] else []) + m.queue
  }

  function Effective(m: Manager, id: int): Settings
    requires |m.threads| > 0 && 0 <= id < |m.loggers|
  {
    Fold(Pending(m), id, m.loggers[id])
  }

  predicate SameKind(a: Change, b: Change) {
    (a.SetEnable? && b.SetEnable?) || (a.SetName? && b.SetName?) || (a.SetPath? && b.SetPath?) ||
    (a.SetLevel? && b.SetLevel?) || (a.SetFileLine? && b.SetFileLine?) || (a.SetDisplay? && b.SetDisplay?) ||
    (a.SetOutFile? && b.SetOutFile?) || (a.SetLimitSize? && b.SetLimitSize?) || (a.SetMonthDir? && b.SetMonthDir?) ||
    (a.SetReserveDays? && b.SetReserveDays?)
  }

  /** The change by itself makes its logger turn a record of this level away. */
  predicate Rejects(c: Change, level: int) {
    c == SetEnable(false) || (c.SetLevel? && level < c.level)
  }

  /** A change of the same kind is queued for the logger, and will undo c. */
  predicate Shadowed(ahead: seq<LogData>, id: int, c: Change) {
    exists j :: 0 <= j < |ahead| && ahead[j].id == id && ahead[j].body.Hot? && SameKind(ahead[j].body.change, c)
  }

  predicate IsRecordOf(d: LogData, id: int) {
    d.id == id && d.body.General?
  }

  predicate HasRecord(pending: seq<LogData>, id: int) {
    exists k :: 0 <= k < |pending| && IsRecordOf(pending[k], id)
  }

  /** Made at once, c tightens its logger before a pending record that it was going to accept. */
  predicate TurnsAway(pending: seq<LogData>, id: int, s: Settings, c: Change) {
    exists k :: 0 <= k < |pending| && IsRecordOf(pending[k], id) && Accepts(Fold(pending[..k], id, s), pending[k].body.level) &&
                Rejects(c, pending[k].body.level) && !Shadowed(pending[..k], id, c)
  }

  // ---- steps ----

  function With(m: Manager, t: nat, phase: Thread): Manager
    requires t < |m.threads|
  {
    m.(threads := m.threads[t := phase])
  }

  /** makeLogData */
  function DoMake(m: Manager, t: nat, id: int, body: Body, reuse: bool): Manager
    requires t < |m.threads| && (reuse ==> m.free != [])
  {
    var n := m.(calls := m.calls + [Call(t, id, body)]);
    if reuse then
      With(n, t, Holding(LogData(m.free[|m.free| - 1], id, body, |m.calls|))).(free := m.free[..|m.free| - 1])
    else
      With(n, t, Holding(LogData(m.made, id, body, |m.calls|))).(made := m.made + 1)
  }

  /** The filter of pushLog. */
  function DoFilter(m: Manager, t: nat): Manager
    requires t < |m.threads| && |m.loggers| > m.lastId
    requires m.threads[t].Holding? && m.threads[t].d.body.General?
  {
    var d := m.threads[t].d;
    if InRange(m, d.id) && m.running && Accepts(m.loggers[d.id], d.body.level) then With(m, t, Passed(d))
    else With(m, t, Discarding(d))
  }

  /** The locked part of pushLog and hotChange. */
  function DoEnqueue(m: Manager, t: nat): Manager
    requires t < |m.threads| && (m.threads[t].Passed? || m.threads[t].Holding?)
  {
    var d := m.threads[t].d;
    if d.body.Hot? || !(0 <= d.id < |m.loggers|) then With(m, t, Idle).(queue := m.queue + [d])
    else
      var kept := d.(body := d.body.(promise := Effective(m, d.id)));
      With(m, t, Idle).(queue := m.queue + [kept],
                        log := m.log.(pushed := m.log.pushed + [kept], pushCount := m.log.pushCount + 1))
  }

  /** What is queued is the entry in the thread's hand, at the end, and nothing else of the queue changes. */
  lemma EnqueueKeepsEntry(m: Manager, t: nat)
    requires t < |m.threads| && (m.threads[t].Passed? || m.threads[t].Holding?)
    ensures var n := DoEnqueue(m, t);
      |n.queue| == |m.queue| + 1 && n.queue[..|m.queue|] == m.queue &&
      SameEntry(m.threads[t].d, n.queue[|m.queue|]) && n.threads == m.threads[t := Idle] &&
      n.loggers == m.loggers && n.free == m.free && n.calls == m.calls &&
      (n.log.pushed == m.log.pushed || n.log.pushed == m.log.pushed + [n.queue[|m.queue|]])
  {
    hide Effective;
  }

  /** freeLogData: the size is read outside the lock. */
  function DoSizeCheck(m: Manager, t: nat): Manager
    requires t < |m.threads| && m.threads[t].Discarding?
  {
    var d := m.threads[t].d;
    if |m.free| < FREE_LIMIT then With(m, t, Returning(d)) else With(m, t, Idle).(deleted := m.deleted + {d.ptr})
  }

  function DoReturn(m: Manager, t: nat): Manager
    requires t < |m.threads| && m.threads[t].Returning?
  {
    With(m, t, Idle).(free := m.free + [m.threads[t].d.ptr])
  }

  function SetLogger(m: Manager, id: int, s: Settings): Manager
    requires 0 <= id < |m.loggers|
  {
    m.(loggers := m.loggers[id := s])
  }

  /** onHotChange called by a setter, with the logger thread stopping or stopped. */
  function DoChangeNow(m: Manager, id: int, c: Change): Manager
    requires |m.threads| > 0 && 0 <= id < |m.loggers|
  {
    SetLogger(m, id, Apply(m.loggers[id], c))
    .(log := m.log.(changed := m.log.changed || HasRecord(Pending(m), id),
                    overtaken := m.log.overtaken || TurnsAway(Pending(m), id, m.loggers[id], c)))
  }

  function DoPop(m: Manager): Manager
    requires |m.threads| > 0 && m.queue != []
  {
    With(m, 0, Got(m.queue[0])).(queue := m.queue[1..])
  }

  /** The body of the inner loop of run, up to freeLogData. */
  function DoProcess(m: Manager): Manager
    requires |m.threads| > 0 && m.threads[0].Got? && |m.loggers| > m.lastId
  {
    var d := m.threads[0].d;
    var v := With(m, 0, Discarding(d));
    if !InRange(m, d.id) then v
    else
      match d.body
      case Hot(change) => SetLogger(v, d.id, Apply(m.loggers[d.id], change))
      case General(level, _, _) =>
        v.(log := m.log.(popCount := m.log.popCount + 1, popped := m.log.popped + [Outcome(d, m.loggers[d.id])]))
  }

  function DoExit(m: Manager): Manager
    requires m.lastId < |m.loggers|
  {
    m.(exited := true,
       loggers := seq(m.lastId + 1, i requires 0 <= i < |m.loggers| => m.loggers[i].(enable := false)) + m.loggers[m.lastId + 1..],
       log := m.log.(atExit := m.log.pushed, cleanExit := forall t :: 0 <= t < |m.threads| ==> !m.threads[t].Passed?))
  }

  ghost function Next(m: Manager, s: Step): Manager
    requires WellFormed(m) && Enabled(m, s)
  {
    match s
    case Make(t, id, level, text, reuse) => DoMake(m, t, id, General(level, text, DEFAULT_SETTINGS), reuse)
    case MakeChange(t, id, change, reuse) => DoMake(m, t, id, Hot(change), reuse)
    case Filter(t) => DoFilter(m, t)
    case Enqueue(t) => DoEnqueue(m, t)
    case SizeCheck(t) => DoSizeCheck(m, t)
    case Return(t) => DoReturn(m, t)
    case EnableNow(id) => SetLogger(m, id, m.loggers[id].(enable := true))
    case LevelNow(id, level) => SetLogger(m, id, m.loggers[id].(level := level))
    case ChangeNow(id, change) => DoChangeNow(m, id, change)
    case CreateLogger(key) =>
      SetLogger(m, m.lastId + 1, m.loggers[m.lastId + 1].(enable := true, name := key)).(lastId := m.lastId + 1)
    case Pop => DoPop(m)
    case Process => DoProcess(m)
    case Stop => m.(running := false)
    case Exit => DoExit(m)
  }

  lemma NextIsWellFormed(m: Manager, s: Step)
    requires WellFormed(m) && Enabled(m, s)
    ensures WellFormed(Next(m, s)) && |Next(m, s).threads| == |m.threads|
  {
  }

  // ---- where entries go, step by step ----

  /** Thread t is the only one to move. */
  ghost predicate Moves(m: Manager, n: Manager, t: nat) {
    t < |m.threads| == |n.threads| && n.threads == m.threads[t := n.threads[t]]
  }

  /** A new or reused entry comes into the hand of t. */
  ghost predicate Acquires(m: Manager, n: Manager, t: nat, reuse: bool) {
    Moves(m, n, t) && m.threads[t] == Idle && n.threads[t].Holding? && n.queue == m.queue && n.deleted == m.deleted &&
    if reuse then n.made == m.made && m.free == n.free + [n.threads[t].d.ptr]
    else n.made == m.made + 1 && n.free == m.free && n.threads[t].d.ptr == m.made
  }

  /** The entry stays in the hand of t. */
  ghost predicate Keeps(m: Manager, n: Manager, t: nat) {
    Moves(m, n, t) && m.threads[t] != Idle && n.threads[t] != Idle && n.threads[t].d == m.threads[t].d &&
    n.queue == m.queue && n.free == m.free && n.deleted == m.deleted && n.made == m.made && n.calls == m.calls &&
    n.log.pushed == m.log.pushed
  }

  /** It goes to the end of the queue, to the free list, or is deleted because that has 200 entries. */
  ghost predicate LetsGo(m: Manager, n: Manager, t: nat) {
    Moves(m, n, t) && m.threads[t] != Idle && n.threads[t] == Idle && n.made == m.made && n.calls == m.calls &&
    var d := m.threads[t].d;
    || (|n.queue| == |m.queue| + 1 && n.queue == m.queue + [n.queue[|m.queue|]] && SameEntry(d, n.queue[|m.queue|])
        && n.free == m.free && n.deleted == m.deleted && !m.threads[t].Returning? && !m.threads[t].Discarding?)
    || (n.queue == m.queue && n.free == m.free + [d.ptr] && n.deleted == m.deleted && m.threads[t].Returning?
        && n.log.pushed == m.log.pushed)
    || (n.queue == m.queue && n.free == m.free && n.deleted == m.deleted + {d.ptr} && |m.free| >= 200
        && !m.threads[t].Returning? && n.log.pushed == m.log.pushed)
  }

  lemma MakeShape(m: Manager, t: nat, id: int, body: Body, reuse: bool)
    requires t < |m.threads| && m.threads[t] == Idle && (reuse ==> m.free != [])
    ensures Acquires(m, DoMake(m, t, id, body, reuse), t, reuse)
  {
  }

  lemma FilterShape(m: Manager, t: nat)
    requires WellFormed(m) && Enabled(m, Filter(t))
    ensures Keeps(m, DoFilter(m, t), t) && !DoFilter(m, t).threads[t].Returning? && !DoFilter(m, t).threads[t].Got?
  {
  }

  lemma EnqueueShape(m: Manager, t: nat)
    requires WellFormed(m) && Enabled(m, Enqueue(t))
    ensures LetsGo(m, DoEnqueue(m, t), t)
  {
    hide Effective;
  }

  lemma SizeCheckShape(m: Manager, t: nat)
    requires WellFormed(m) && Enabled(m, SizeCheck(t))
    ensures var n := DoSizeCheck(m, t);
      (LetsGo(m, n, t) && n.queue == m.queue) || (Keeps(m, n, t) && n.threads[t].Returning? && |m.free| < 200)
  {
  }

  lemma ReturnShape(m: Manager, t: nat)
    requires WellFormed(m) && Enabled(m, Return(t))
    ensures LetsGo(m, DoReturn(m, t), t)
  {
  }

  lemma ProcessShape(m: Manager)
    requires WellFormed(m) && Enabled(m, Process)
    ensures Keeps(m, DoProcess(m), 0) && DoProcess(m).threads[0].Discarding?
  {
    hide Apply;
  }

  ghost predicate PopsHead(m: Manager, n: Manager) {
    Moves(m, n, 0) && m.threads[0] == Idle && m.queue != [] && n.threads[0] == Got(m.queue[0]) && n.queue == m.queue[1..] &&
    n.free == m.free && n.deleted == m.deleted && n.made == m.made && n.calls == m.calls && n.log.pushed == m.log.pushed
  }

  lemma PopShape(m: Manager)
    requires WellFormed(m) && Enabled(m, Pop)
    ensures PopsHead(m, DoPop(m))
  {
  }

  ghost predicate MovesNothing(m: Manager, n: Manager) {
    n.threads == m.threads && n.queue == m.queue && n.free == m.free && n.deleted == m.deleted && n.made == m.made &&
    n.calls == m.calls && n.log.pushed == m.log.pushed
  }

  lemma SettingShape(m: Manager, s: Step)
    requires WellFormed(m) && Enabled(m, s)
    requires s.EnableNow? || s.LevelNow? || s.ChangeNow? || s.CreateLogger? || s.Stop? || s.Exit?
    ensures MovesNothing(m, Next(m, s))
  {
    hide Apply, HasRecord, TurnsAway;
  }

  /** All of it, step by step. */
  ghost predicate Shape(m: Manager, s: Step, n: Manager) {
    match s
    case Make(t, _, _, _, reuse) => Acquires(m, n, t, reuse)
    case MakeChange(t, _, _, reuse) => Acquires(m, n, t, reuse)
    case Filter(t) => Keeps(m, n, t) && !n.threads[t].Returning? && !n.threads[t].Got?
    case Enqueue(t) => LetsGo(m, n, t)
    case SizeCheck(t) =>
      (LetsGo(m, n, t) && n.queue == m.queue) || (Keeps(m, n, t) && n.threads[t].Returning? && |m.free| < 200)
    case Return(t) => LetsGo(m, n, t)
    case Pop => PopsHead(m, n)
    case Process => Keeps(m, n, 0) && n.threads[0].Discarding?
    case _ => MovesNothing(m, n)
  }

  lemma StepShape(m: Manager, s: Step)
    requires WellFormed(m) && Enabled(m, s)
    ensures Shape(m, s, Next(m, s))
  {
    hide DoMake, DoFilter, DoEnqueue, DoSizeCheck, DoReturn, DoPop, DoProcess, DoChangeNow, DoExit, Acquires, Keeps, LetsGo, PopsHead, MovesNothing;
    match s
    case Make(t, id, level, text, reuse) => MakeShape(m, t, id, General(level, text, DEFAULT_SETTINGS), reuse);
    case MakeChange(t, id, change, reuse) => MakeShape(m, t, id, Hot(change), reuse);
    case Filter(t) => FilterShape(m, t);
    case Enqueue(t) => EnqueueShape(m, t);
    case SizeCheck(t) => SizeCheckShape(m, t);
    case Return(t) => ReturnShape(m, t);
    case Pop => PopShape(m);
    case Process => ProcessShape(m);
    case _ => hide Next; SettingShape(m, s);
  }

  ghost predicate Runs(m: Manager, steps: seq<Step>)
    requires WellFormed(m)
    decreases |steps|
  {
    steps != [] ==> Enabled(m, steps[0]) && (NextIsWellFormed(m, steps[0]); Runs(Next(m, steps[0]), steps[1..]))
  }

  ghost function After(m: Manager, steps: seq<Step>): (n: Manager)
    requires WellFormed(m) && Runs(m, steps)
    ensures WellFormed(n) && |n.threads| == |m.threads|
    decreases |steps|
  {
    if steps == [] then m else
      NextIsWellFormed(m, steps[0]);
      After(Next(m, steps[0]), steps[1..])
  }

  lemma NoSteps(m: Manager)
    requires WellFormed(m)
    ensures Runs(m, []) && After(m, []) == m
  {
  }

  lemma RunsCons(m: Manager, s: Step, rest: seq<Step>)
    requires WellFormed(m) && Enabled(m, s)
    requires WellFormed(Next(m, s)) && Runs(Next(m, s), rest)
    ensures Runs(m, [s] + rest) && After(m, [s] + rest) == After(Next(m, s), rest)
  {
    hide Enabled, Next, WellFormed;
    assert ([s] + rest)[1..] == rest;
  }

  lemma {:induction false} RunsAppend(m: Manager, first: seq<Step>, rest: seq<Step>)
    requires WellFormed(m) && Runs(m, first) && Runs(After(m, first), rest)
    ensures Runs(m, first + rest) && After(m, first + rest) == After(After(m, first), rest)
    decreases |first|
  {
    hide Enabled, Next, WellFormed;
    if first == [] {
      assert first + rest == rest;
    } else {
      FirstStep(m, first);
      hide *;
      RunsAppend(Next(m, first[0]), first[1..], rest);
      RunsCons(m, first[0], first[1..] + rest);
      assert [first[0]] + (first[1..] + rest) == first + rest;
    }
  }

  lemma FirstStep(m: Manager, steps: seq<Step>)
    requires WellFormed(m) && Runs(m, steps) && steps != []
    ensures Enabled(m, steps[0]) && WellFormed(Next(m, steps[0]))
    ensures Runs(Next(m, steps[0]), steps[1..]) && After(m, steps) == After(Next(m, steps[0]), steps[1..])
  {
    NextIsWellFormed(m, steps[0]);
  }

  /** The manager when run enters its loop: one logger, nothing queued, no thread holding anything. */
  ghost function Init(threads: nat): (m: Manager)
    ensures WellFormed(m)
  {
    Manager(true, false, [DEFAULT_SETTINGS.(enable := true, name := "Main")] + seq(LOGGER_MAX - 1, _ => DEFAULT_SETTINGS), 0,
            [], [], seq(threads + 1, _ => Idle), 0, {}, [], History([], [], 0, 0, false, false, [], false))
  }
}
