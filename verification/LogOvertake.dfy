/**
 Changes made at once by a setter called after stop(): exactly which of the queued records they turn away.
 */
module LogOvertake {
  import opened LogQueues
  import opened LogOrder
  import opened LogCalls

  /** Where the record at position k of a queue stands among what is popped of it. */
  lemma {:induction false} MetHolds(queue: seq<LogData>, loggers: seq<Settings>, lastId: nat, k: nat)
    requires lastId < |loggers| && k < |queue| && queue[k].body.General? && 0 <= queue[k].id <= lastId
    ensures var i, met := |Met(queue[..k], loggers, lastId)|, Met(queue, loggers, lastId);
      i < |met| && met[i] == Outcome(queue[k], Fold(queue[..k], queue[k].id, loggers[queue[k].id]))
  {
    hide Fold;
    var n := |queue| - 1;
    if k < n {
      MetHolds(queue[..n], loggers, lastId, k);
      assert queue[..n][..k] == queue[..k];
    }
  }

  ghost predicate Stopped(m: Manager, id: int, c: Change) {
    WellFormed(m) && m.threads[0] == Idle && !m.exited && Enabled(m, ChangeNow(id, c))
  }

  ghost function ChangeAndDrain(m: Manager, id: int, c: Change): (steps: seq<Step>)
    requires Stopped(m, id, c)
    ensures Runs(m, steps)
  {
    ChangeAndDrainRuns(m, id, c);
    [ChangeNow(id, c)] + DrainSteps(Next(m, ChangeNow(id, c)))
  }

  lemma ChangeAndDrainRuns(m: Manager, id: int, c: Change)
    requires Stopped(m, id, c)
    ensures var n := Next(m, ChangeNow(id, c));
      WellFormed(n) && n.threads == m.threads && n.queue == m.queue && n.log.popped == m.log.popped && n.lastId == m.lastId &&
      n.loggers == m.loggers[id := Apply(m.loggers[id], c)] &&
      var steps := [ChangeNow(id, c)] + DrainSteps(n);
      Runs(m, steps) && After(m, steps) == Drained(n)
  {
    hide Apply, HasRecord, TurnsAway, Runs, After, Drained, DrainSteps;
    var n := Next(m, ChangeNow(id, c));
    NextIsWellFormed(m, ChangeNow(id, c));
    DrainIsARun(n);
    RunsCons(m, ChangeNow(id, c), DrainSteps(n));
  }

  /** Among what has been popped once the change is made and the queue drained. */
  ghost function OutcomeOf(m: Manager, id: int, c: Change, k: nat): Outcome
    requires Stopped(m, id, c) && k < |m.queue| && IsRecordOf(m.queue[k], id)
  {
    OutcomeExists(m, id, c, k);
    After(m, ChangeAndDrain(m, id, c)).log.popped[|m.log.popped| + |Met(m.queue[..k], Next(m, ChangeNow(id, c)).loggers, m.lastId)|]
  }

  lemma OutcomeExists(m: Manager, id: int, c: Change, k: nat)
    requires Stopped(m, id, c) && k < |m.queue| && IsRecordOf(m.queue[k], id)
    ensures var n, q := Next(m, ChangeNow(id, c)), After(m, ChangeAndDrain(m, id, c));
      |n.loggers| > m.lastId &&
      var i := |m.log.popped| + |Met(m.queue[..k], n.loggers, m.lastId)|;
      i < |q.log.popped| &&
      q.log.popped[i] == Outcome(m.queue[k], Fold(m.queue[..k], id, Apply(m.loggers[id], c)))
  {
    ChangeAndDrainRuns(m, id, c);
    assert 0 <= id <= m.lastId;
    hide Apply, HasRecord, TurnsAway, Runs, After, Drained, DrainSteps, Next, Met, Fold;
    var n := Next(m, ChangeNow(id, c));
    DrainMeetsTheFold(n);
    MetHolds(n.queue, n.loggers, n.lastId, k);
  }

  /**
   Which records a change made at once turns away, for every state with the logger thread between entries,
   every change and every queued record that was going to be accepted: those whose level it rejects and ahead
   of which no change of its kind is queued.
   */
  lemma DirectChangeTurnsAwayIff(m: Manager, id: int, c: Change, k: nat)
    requires Stopped(m, id, c) && k < |m.queue| && IsRecordOf(m.queue[k], id)
    requires Accepts(Fold(m.queue[..k], id, m.loggers[id]), m.queue[k].body.level)
    ensures OutcomeOf(m, id, c, k).d == m.queue[k]
    ensures !Accepts(OutcomeOf(m, id, c, k).met, m.queue[k].body.level) <==>
            Rejects(c, m.queue[k].body.level) && !Shadowed(m.queue[..k], id, c)
  {
    OutcomeExists(m, id, c, k);
    TurnedAwayIff(m.queue[..k], id, m.loggers[id], c, m.queue[k].body.level);
  }

  ghost predicate IsTurnedAway(m: Manager, id: int, c: Change, k: nat)
    requires Stopped(m, id, c)
  {
    k < |m.queue| && IsRecordOf(m.queue[k], id) &&
    Accepts(Fold(m.queue[..k], id, m.loggers[id]), m.queue[k].body.level) &&
    !Accepts(OutcomeOf(m, id, c, k).met, m.queue[k].body.level)
  }

  /** The promise of PromisesAreKept is given up exactly when it is broken: draining then rejects an accepted record. */
  lemma OvertakenIffTurnedAway(m: Manager, id: int, c: Change)
    requires Stopped(m, id, c) && !m.log.overtaken
    ensures Next(m, ChangeNow(id, c)).log.overtaken <==> exists k: nat :: IsTurnedAway(m, id, c, k)
  {
    assert Pending(m) == m.queue;
    assert Next(m, ChangeNow(id, c)).log.overtaken == TurnsAway(m.queue, id, m.loggers[id], c) by {
      hide Apply, TurnsAway, HasRecord;
    }
    hide Next, Apply, Fold, Shadowed, Rejects, Accepts, OutcomeOf, Enabled;
    if k :| 0 <= k < |m.queue| && IsRecordOf(m.queue[k], id) && Accepts(Fold(m.queue[..k], id, m.loggers[id]), m.queue[k].body.level)
            && Rejects(c, m.queue[k].body.level) && !Shadowed(m.queue[..k], id, c) {
      DirectChangeTurnsAwayIff(m, id, c, k);
      assert IsTurnedAway(m, id, c, k);
    }
    forall k: nat | IsTurnedAway(m, id, c, k) ensures TurnsAway(m.queue, id, m.loggers[id], c) {
      DirectChangeTurnsAwayIff(m, id, c, k);
    }
  }

  lemma Passing(m0: Manager) returns (m1: Manager, m2: Manager)
    requires m0 == Init(1)
    ensures Enabled(m0, Make(1, 0, 3, "", false)) && m1 == Next(m0, Make(1, 0, 3, "", false))
    ensures WellFormed(m1) && Enabled(m1, Filter(1)) && m2 == Next(m1, Filter(1)) && WellFormed(m2)
    ensures |m2.threads| == 2 && m2.threads[0] == Idle && m2.threads[1].Passed? && m2.threads[1].d.id == 0
    ensures m2.threads[1].d.body.General? && m2.threads[1].d.body.level == 3
    ensures m2.queue == [] && !m2.exited && m2.loggers == m0.loggers
  {
    m1 := Next(m0, Make(1, 0, 3, "", false));
    m2 := Next(m1, Filter(1));
  }

  lemma Queueing(m2: Manager) returns (m3: Manager, m4: Manager)
    requires WellFormed(m2) && |m2.threads| == 2 && m2.threads[0] == Idle && m2.threads[1].Passed? && m2.threads[1].d.id == 0
    requires m2.threads[1].d.body.General? && m2.threads[1].d.body.level == 3 && m2.queue == [] && !m2.exited
    ensures Enabled(m2, Enqueue(1)) && m3 == Next(m2, Enqueue(1))
    ensures WellFormed(m3) && Enabled(m3, Stop) && m4 == Next(m3, Stop)
    ensures Stopped(m4, 0, SetLevel(9)) && |m4.queue| == 1 && IsRecordOf(m4.queue[0], 0) && m4.queue[0].body.level == 3
    ensures m4.loggers == m2.loggers
  {
    hide Effective, Fold;
    m3 := Next(m2, Enqueue(1));
    m4 := Next(m3, Stop);
  }

  lemma HeadIsTurnedAway(m: Manager)
    requires Stopped(m, 0, SetLevel(9)) && |m.queue| == 1 && IsRecordOf(m.queue[0], 0) && m.queue[0].body.level == 3
    requires Accepts(m.loggers[0], 3)
    ensures IsTurnedAway(m, 0, SetLevel(9), 0)
  {
    assert m.queue[..0] == [] && Fold(m.queue[..0], 0, m.loggers[0]) == m.loggers[0];
    assert Rejects(SetLevel(9), 3) && !Shadowed(m.queue[..0], 0, SetLevel(9));
    hide Stopped, Fold, Shadowed, Rejects, Accepts, OutcomeOf;
    DirectChangeTurnsAwayIff(m, 0, SetLevel(9), 0);
  }

  /** A run to such a state. */
  lemma DirectChangeOvertakes() returns (steps: seq<Step>)
    ensures Runs(Init(1), steps)
    ensures var m := After(Init(1), steps); Stopped(m, 0, SetLevel(9)) && IsTurnedAway(m, 0, SetLevel(9), 0)
  {
    var m0 := Init(1);
    assert Accepts(m0.loggers[0], 3);
    hide *;
    var m1, m2 := Passing(m0);
    var m3, m4 := Queueing(m2);
    HeadIsTurnedAway(m4);
    NextIsWellFormed(m3, Stop);
    NoSteps(m4);
    RunsCons(m3, Stop, []);
    RunsCons(m2, Enqueue(1), [Stop] + []);
    RunsCons(m1, Filter(1), [Enqueue(1)] + ([Stop] + []));
    RunsCons(m0, Make(1, 0, 3, "", false), [Filter(1)] + ([Enqueue(1)] + ([Stop] + [])));
    steps := [Make(1, 0, 3, "", false)] + ([Filter(1)] + ([Enqueue(1)] + ([Stop] + [])));
  }
}
