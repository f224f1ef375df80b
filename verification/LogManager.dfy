/**
 The log manager as the object it is (examples/tcp_cereal_packet/utility/log4z.cpp): each method is one whole
 call, and carries its thread through the steps of the machine.
 */
module LogManagers {
  import opened LogQueues
  import opened LogCalls

  class LogerManager {
    var running: bool
    var loggers: array<Settings>
    var lastId: nat
    var queue: seq<LogData>
    var free: seq<nat>
    // Not fields of the original: what its threads hold in local variables, what its allocator has handed out
    // and taken back, and the history the properties speak about.
    var exited: bool
    var threads: seq<Thread>
    var made: nat
    var deleted: set<nat>
    var calls: seq<Call>
    var log: History

    function State(): Manager
      reads this, loggers
    {
      Manager(running, exited, loggers[..], lastId, queue, free, threads, made, deleted, calls, log)
    }

    ghost predicate Valid()
      reads this, loggers
    {
      WellFormed(State())
    }

    /** Not yet running; with the given number of client threads. */
    constructor (clients: nat)
      ensures fresh(loggers) && State() == Init(clients).(running := false)
    {
      running, exited, lastId := false, false, 0;
      queue, free := [], [];
      threads := seq(clients + 1, _ => Idle);
      made, deleted, calls := 0, {}, [];
      log := History([], [], 0, 0, false, false, [], false);
      loggers := new Settings[LOGGER_MAX](_ => DEFAULT_SETTINGS);
      new;
      loggers[0] := DEFAULT_SETTINGS.(enable := true, name := "Main");
      assert loggers[..] == [DEFAULT_SETTINGS.(enable := true, name := "Main")] + seq(LOGGER_MAX - 1, _ => DEFAULT_SETTINGS);
    }

    /** The first thing run does. */
    method BeginRun()
      modifies this`running
      ensures State() == old(State()).(running := true)
    {
      running := true;
    }

    method MakeLogData(t: nat, id: int, body: Body) returns (d: LogData)
      requires Valid() && t < |threads| && threads[t] == Idle
      modifies this`free, this`made, this`threads, this`calls
      ensures Valid() && State() == DoMake(old(State()), t, id, body, old(free) != [])
      ensures |threads| == |old(threads)| && threads[t] == Holding(d)
      ensures d.id == id && d.body == body
      ensures if old(free) != [] then free + [d.ptr] == old(free) else free == [] && d.ptr == old(made)
    {
      if free != [] {
        d := LogData(free[|free| - 1], id, body, |calls|);
        free := free[..|free| - 1];
      } else {
        d := LogData(made, id, body, |calls|);
        made := made + 1;
      }
      calls := calls + [Call(t, id, body)];
      threads := threads[t := Holding(d)];
    }

    method FreeLogData(t: nat, d: LogData)
      requires Valid() && t < |threads| && threads[t] == Discarding(d)
      modifies this`free, this`deleted, this`threads
      ensures Valid() && State() == Freed(old(State()), t)
      ensures threads == old(threads)[t := Idle] && queue == old(queue)
      ensures if |old(free)| < 200 then free == old(free) + [d.ptr] && deleted == old(deleted)
              else free == old(free) && deleted == old(deleted) + {d.ptr}
    {
      if |free| < FREE_LIMIT {
        threads := threads[t := Returning(d)];
        free := free + [d.ptr];
      } else {
        deleted := deleted + {d.ptr};
      }
      threads := threads[t := Idle];
    }

    /** The locked part of pushLog and hotChange. */
    method Enqueue(t: nat, d: LogData)
      requires Valid() && t < |threads| && (threads[t] == Passed(d) || threads[t] == Holding(d))
      modifies this`queue, this`log, this`threads
      ensures Valid() && State() == DoEnqueue(old(State()), t)
      ensures Appended(old(queue), queue, d) && loggers[..] == old(loggers[..])
    {
      EnqueueKeepsEntry(State(), t);
      hide Fold;
      if d.body.Hot? || !(0 <= d.id < loggers.Length) {
        queue := queue + [d];
      } else {
        var kept := d.(body := d.body.(promise := Effective(State(), d.id)));
        queue := queue + [kept];
        log := log.(pushed := log.pushed + [kept], pushCount := log.pushCount + 1);
      }
      threads := threads[t := Idle];
    }

    method PushLog(t: nat, d: LogData) returns (ok: bool)
      requires Valid() && t < |threads| && threads[t] == Holding(d) && d.body.General?
      modifies this`queue, this`log, this`free, this`deleted, this`threads
      ensures Valid() && State() == Pushed(old(State()), t)
      ensures ok <==> 0 <= d.id <= lastId && running && Accepts(loggers[d.id], d.body.level)
      ensures if ok then Appended(old(queue), queue, d) else queue == old(queue)
    {
      hide DoEnqueue, Freed;
      ok := false;
      if d.id < 0 || d.id > lastId || !running || !loggers[d.id].enable {
        threads := threads[t := Discarding(d)];
        assert State() == DoFilter(old(State()), t);
        FreeLogData(t, d);
      } else if d.body.level < loggers[d.id].level {
        threads := threads[t := Discarding(d)];
        assert State() == DoFilter(old(State()), t);
        FreeLogData(t, d);
      } else {
        threads := threads[t := Passed(d)];
        assert State() == DoFilter(old(State()), t);
        Enqueue(t, d);
        ok := true;
      }
    }

    method OnHotChange(id: int, change: Change) returns (ok: bool)
      requires Valid()
      modifies loggers
      ensures Valid() && ok == InRange(State(), id)
      ensures State() == if ok then SetLogger(old(State()), id, Apply(old(loggers[..])[id], change)) else old(State())
      ensures ok ==> Takes(loggers[id], change) && SameElsewhere(loggers[id], old(loggers[..])[id], change)
    {
      if id < 0 || id > lastId {
        return false;
      }
      var s := loggers[id];
      match change {
        case SetEnable(on) => loggers[id] := s.(enable := on);
        case SetName(text) => loggers[id] := s.(name := text);
        case SetPath(text) => loggers[id] := s.(path := text);
        case SetLevel(level) => loggers[id] := s.(level := level);
        case SetFileLine(on) => loggers[id] := s.(fileLine := on);
        case SetDisplay(on) => loggers[id] := s.(display := on);
        case SetOutFile(on) => loggers[id] := s.(outfile := on);
        case SetLimitSize(size) => loggers[id] := s.(limitsize := size);
        case SetMonthDir(on) => loggers[id] := s.(monthdir := on);
        case SetReserveDays(days) => loggers[id] := s.(reservedays := days);
      }
      assert loggers[..] == old(loggers[..])[id := Apply(s, change)];
      ApplySetsOne(s, change);
      return true;
    }

    /** History of a change about to be made at once. */
    method NoteChange(id: int, change: Change)
      requires Valid() && 0 <= id <= lastId
      modifies this`log
      ensures Valid() && State() == old(State()).(log := DoChangeNow(old(State()), id, change).log)
    {
      hide Fold, HasRecord, TurnsAway;
      var pending := Pending(State());
      log := log.(changed := log.changed || HasRecord(pending, id),
                  overtaken := log.overtaken || TurnsAway(pending, id, loggers[id], change));
    }

    /** A change made through the queue while the logger thread runs, at once when it does not. */
    method HotChange(t: nat, id: int, change: Change) returns (ok: bool)
      requires Valid() && t < |threads| && threads[t] == Idle
      modifies this`queue, this`log, this`free, this`made, this`threads, this`calls, loggers
      ensures Valid() && ok == (InRange(State(), id) && |TextOf(change)| < LOG_BUF_SIZE)
      ensures State() == HotChanged(old(State()), t, id, change)
      ensures if ok && running then
                |queue| == |old(queue)| + 1 && queue[..|old(queue)|] == old(queue) &&
                queue[|old(queue)|].id == id && queue[|old(queue)|].body == Hot(change)
              else queue == old(queue)
    {
      hide Apply, HasRecord, TurnsAway, DoEnqueue;
      if id < 0 || id > lastId { return false; }
      if |TextOf(change)| >= LOG_BUF_SIZE { return false; }
      if !running {
        NoteChange(id, change);
        ok := OnHotChange(id, change);
      } else {
        var d := MakeLogData(t, id, Hot(change));
        Enqueue(t, d);
        return true;
      }
    }

    method EnableLogger(t: nat, id: int, enable: bool) returns (ok: bool)
      requires Valid() && t < |threads| && threads[t] == Idle
      modifies this`queue, this`log, this`free, this`made, this`threads, this`calls, loggers
      ensures Valid() && ok == InRange(State(), id)
      ensures State() == EnableCalled(old(State()), t, id, enable)
      ensures ok && enable ==> loggers[id].enable
    {
      hide HotChanged;
      if id < 0 || id > lastId { return false; }
      if enable {
        loggers[id] := loggers[id].(enable := true);
        assert loggers[..] == old(loggers[..])[id := old(loggers[..])[id].(enable := true)];
        return true;
      }
      ok := HotChange(t, id, SetEnable(false));
    }

    method SetLoggerLevel(t: nat, id: int, level: int) returns (ok: bool)
      requires Valid() && t < |threads| && threads[t] == Idle
      modifies this`queue, this`log, this`free, this`made, this`threads, this`calls, loggers
      ensures Valid() && ok == InRange(State(), id)
      ensures State() == LevelCalled(old(State()), t, id, level)
      ensures ok && level <= old(loggers[..])[id].level ==> loggers[id].level == level
    {
      hide HotChanged;
      if id < 0 || id > lastId { return false; }
      if level <= loggers[id].level {
        loggers[id] := loggers[id].(level := level);
        assert loggers[..] == old(loggers[..])[id := old(loggers[..])[id].(level := level)];
        return true;
      }
      ok := HotChange(t, id, SetLevel(level));
    }

    method PopLog() returns (d: LogData, ok: bool)
      requires Valid() && threads[0] == Idle
      modifies this`queue, this`threads
      ensures Valid() && ok == (old(queue) != [])
      ensures ok ==> State() == DoPop(old(State())) && d == old(queue)[0] && |threads| > 0 && threads[0] == Got(d)
      ensures !ok ==> State() == old(State())
    {
      if queue == [] {
        return LogData(0, 0, Hot(SetEnable(false)), 0), false;
      }
      d := queue[0];
      queue := queue[1..];
      threads := threads[0 := Got(d)];
      return d, true;
    }

    /** The body of the inner loop of run, for the entry just popped; a record is put out if what it met accepts it. */
    method Handle(d: LogData)
      requires Valid() && threads[0] == Got(d)
      modifies this`threads, this`free, this`deleted, this`log, loggers
      ensures Valid() && State() == Freed(DoProcess(old(State())), 0) && threads[0] == Idle
    {
      hide Apply, Freed;
      ghost var before := State();
      if d.id < 0 || d.id > lastId {
        threads := threads[0 := Discarding(d)];
      } else if d.body.Hot? {
        var _ := OnHotChange(d.id, d.body.change);
        threads := threads[0 := Discarding(d)];
      } else {
        log := log.(popCount := log.popCount + 1, popped := log.popped + [Outcome(d, loggers[d.id])]);
        threads := threads[0 := Discarding(d)];
      }
      assert State() == DoProcess(before);
      FreeLogData(0, d);
    }

    /** The inner loop of run. */
    method Drain()
      requires Valid() && threads[0] == Idle
      modifies this`queue, this`threads, this`free, this`deleted, this`log, loggers
      ensures Valid() && State() == Drained(old(State())) && queue == []
    {
      hide DoProcess, DoPop, Freed;
      ghost var start := State();
      while true
        invariant Valid() && threads[0] == Idle && loggers == old(loggers)
        invariant Drained(State()) == Drained(start)
        decreases |queue|
      {
        ghost var before := State();
        var d, more := PopLog();
        if !more { break; }
        RoundCases(before);
        assert Drained(before) == Drained(Round(before));
        Handle(d);
        assert State() == Round(before);
      }
    }
  }

  /** The queue has grown by that entry, at its end. */
  ghost predicate Appended(before: seq<LogData>, after: seq<LogData>, d: LogData) {
    |after| == |before| + 1 && after[..|before|] == before && SameEntry(d, after[|before|])
  }
}
