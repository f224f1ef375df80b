/**
 The reconnecting client (src/tcp_client.cc).  Connection attempts and timer waits complete when the
 environment says so; a connection delivers close callbacks until it has drained.
 */
module TcpClients {

  const MAX_RECONNECT_TIMES: nat := 5

  datatype Current = NoConn | Current(id: nat)

  /** What the client does to others, besides attempting: history. */
  datatype Notice = NotOpenCb | CloseCalled(id: nat)

  datatype Client = Client(
    reconnectingTimes: nat,
    autoReconnect: bool,
    conn: Current,
    connecting: nat,        // async_connect calls not yet completed
    armed: nat,             // timer waits not yet completed
    nextId: nat,
    draining: set<nat>,     // connections that may still deliver a close callback
    started: nat,           // attempts started so far
    overlapped: bool,       // the user called Connect while an attempt, a wait or a connection existed
    drainedFirst: bool,     // every connection was established after all earlier ones had drained
    identityHeld: bool,     // the assertion in OnRemoveConn never failed
    notices: seq<Notice>)   // connection callbacks for a closed socket, and calls of TCPConn::Close
  {
    function Activity(): nat {
      connecting + armed + if conn == NoConn then 0 else 1
    }

    function Connect(): Client {
      this.(connecting := connecting + 1, started := started + 1)
    }

    function Reconnect(): Client {
      this.(reconnectingTimes := reconnectingTimes + 1).Connect()
    }

    function HandleConn(socketOpen: bool): Client {
      if !socketOpen then this.(notices := notices + [NotOpenCb])
      else this.(conn := Current(nextId), nextId := nextId + 1, draining := draining + {nextId},
                 drainedFirst := drainedFirst && draining == {})
    }

    function Connected(socketOpen: bool): Client
      requires connecting > 0
    {
      this.(connecting := connecting - 1, reconnectingTimes := 0).HandleConn(socketOpen)
    }

    function ConnectFailed(): Client
      requires connecting > 0
    {
      var c := this.(connecting := connecting - 1);
      if autoReconnect && reconnectingTimes < MAX_RECONNECT_TIMES then c.(armed := armed + 1) else c
    }

    function TimerFired(): Client
      requires armed > 0
    {
      this.(armed := armed - 1).Reconnect()
    }

    function OnRemoveConn(id: nat): Client {
      if conn == NoConn then this
      else
        var c := this.(identityHeld := identityHeld && conn == Current(id), conn := NoConn);
        if autoReconnect then c.Reconnect() else c
    }

    function DisconnectInLoop(): Client {
      var c := this.(autoReconnect := false);
      if conn == NoConn then c else c.(notices := notices + [CloseCalled(conn.id)])
    }
  }

  function NewClient(): Client {
    Client(0, false, NoConn, 0, 0, 0, {}, 0, false, true, true, [])
  }

  datatype Step =
    | UserConnect
    | Succeeds(socketOpen: bool)
    | Fails
    | TimerFires
    | CloseCallback(id: nat)
    | Drained(id: nat)
    | SetAuto(on: bool)
    | Disconnect

  predicate Enabled(c: Client, s: Step) {
    match s
    case Succeeds(_) => c.connecting > 0
    case Fails => c.connecting > 0
    case TimerFires => c.armed > 0
    case CloseCallback(id) => id in c.draining
    // a connection that is still current has a read outstanding, so it has not drained
    case Drained(id) => id in c.draining && c.conn != Current(id)
    case _ => true
  }

  function Next(c: Client, s: Step): Client
    requires Enabled(c, s)
  {
    match s
    case UserConnect => c.(overlapped := c.overlapped || c.Activity() > 0).Connect()
    case Succeeds(socketOpen) => c.Connected(socketOpen)
    case Fails => c.ConnectFailed()
    case TimerFires => c.TimerFired()
    case CloseCallback(id) => c.OnRemoveConn(id)
    case Drained(id) => c.(draining := c.draining - {id})
    case SetAuto(on) => c.(autoReconnect := on)
    case Disconnect => c.DisconnectInLoop()
  }

  ghost predicate Runs(c: Client, steps: seq<Step>)
    decreases |steps|
  {
    steps != [] ==> Enabled(c, steps[0]) && Runs(Next(c, steps[0]), steps[1..])
  }

  ghost function After(c: Client, steps: seq<Step>): Client
    requires Runs(c, steps)
    decreases |steps|
  {
    if steps == [] then c else After(Next(c, steps[0]), steps[1..])
  }

  // ------------------------------------------------------------------------------------------------
  // The bound
  // ------------------------------------------------------------------------------------------------

  /** Without overlapping calls there is one thing going on at a time, and the counter stays in 0..5. */
  ghost predicate CountInv(c: Client) {
    !c.overlapped ==>
      c.Activity() <= 1 &&
      c.reconnectingTimes <= MAX_RECONNECT_TIMES &&
      (c.conn != NoConn ==> c.reconnectingTimes == 0) &&
      (c.armed > 0 ==> c.reconnectingTimes < MAX_RECONNECT_TIMES)
  }

  /** If connections drain before the next one is established, the only one left to call back is the current one. */
  ghost predicate IdentityInv(c: Client) {
    (forall id :: id in c.draining ==> id < c.nextId) &&
    (c.conn != NoConn ==> c.conn.id in c.draining) &&
    (c.drainedFirst ==> c.identityHeld && (c.conn != NoConn ==> c.draining == {c.conn.id}))
  }

  lemma StepKeepsInv(c: Client, s: Step)
    requires Enabled(c, s) && CountInv(c) && IdentityInv(c)
    ensures CountInv(Next(c, s)) && IdentityInv(Next(c, s))
  {
  }

  lemma {:induction false} RunsKeepInv(c: Client, steps: seq<Step>)
    requires Runs(c, steps) && CountInv(c) && IdentityInv(c)
    ensures CountInv(After(c, steps)) && IdentityInv(After(c, steps))
    decreases |steps|
  {
    if steps != [] {
      StepKeepsInv(c, steps[0]);
      hide CountInv, IdentityInv, Next, Enabled;
      RunsKeepInv(Next(c, steps[0]), steps[1..]);
    }
  }

  /** On every run without overlapping calls of Connect: at most one activity, 0 <= times <= 5, and 0 when connected. */
  lemma CounterIsBounded(steps: seq<Step>)
    requires Runs(NewClient(), steps) && !After(NewClient(), steps).overlapped
    ensures var c := After(NewClient(), steps);
      c.Activity() <= 1 && c.reconnectingTimes <= MAX_RECONNECT_TIMES &&
      (c.conn != NoConn ==> c.reconnectingTimes == 0)
  {
    RunsKeepInv(NewClient(), steps);
  }

  /** The identity assertion in OnRemoveConn holds on every run in which connections drain in turn. */
  lemma IdentityHolds(steps: seq<Step>)
    requires Runs(NewClient(), steps) && After(NewClient(), steps).drainedFirst
    ensures After(NewClient(), steps).identityHeld
  {
    RunsKeepInv(NewClient(), steps);
  }

  /** In any reachable state, some close callback would fail it exactly when another connection than the current one has not drained. */
  lemma IdentityAtRiskIff(c: Client)
    requires IdentityInv(c) && c.identityHeld
    ensures (exists id :: Enabled(c, CloseCallback(id)) && !Next(c, CloseCallback(id)).identityHeld)
            <==> c.conn != NoConn && c.draining != {c.conn.id}
  {
    if c.conn != NoConn && c.draining != {c.conn.id} {
      var id :| id in c.draining && id != c.conn.id;
      assert Enabled(c, CloseCallback(id)) && !Next(c, CloseCallback(id)).identityHeld;
    }
  }

  /** So establishing a connection puts the assertion at risk exactly when an earlier one has not drained. */
  lemma EstablishedTooSoonIff(c: Client)
    requires IdentityInv(c) && c.identityHeld && Enabled(c, Succeeds(true))
    ensures var d := Next(c, Succeeds(true));
      (exists id :: Enabled(d, CloseCallback(id)) && !Next(d, CloseCallback(id)).identityHeld) <==> c.draining != {}
  {
    var d := Next(c, Succeeds(true));
    IdentityAtRiskIff(d);
    assert d.draining == c.draining + {c.nextId} && c.nextId !in c.draining;
    if c.draining != {} {
      var id :| id in c.draining;
      assert id in d.draining && id != d.conn.id;
    }
  }

  lemma {:induction false} RunsAppend(c: Client, first: seq<Step>, rest: seq<Step>)
    requires Runs(c, first) && Runs(After(c, first), rest)
    ensures Runs(c, first + rest) && After(c, first + rest) == After(After(c, first), rest)
    decreases |first|
  {
    hide Enabled, Next;
    if first == [] {
      assert first + rest == rest;
    } else {
      RunsAppend(Next(c, first[0]), first[1..], rest);
      assert (first + rest)[1..] == first[1..] + rest;
    }
  }

  /**
   The converse of IdentityHolds: every run that could establish a connection while an earlier one drains goes
   on to one on which the assertion fails.
   */
  lemma TooSoonBreaksIdentity(steps: seq<Step>, id: nat)
    requires Runs(NewClient(), steps) && id in After(NewClient(), steps).draining && After(NewClient(), steps).connecting > 0
    ensures var more := steps + [Succeeds(true), CloseCallback(id)];
      Runs(NewClient(), more) && !After(NewClient(), more).identityHeld
  {
    RunsKeepInv(NewClient(), steps);
    var c := After(NewClient(), steps);
    var d := Next(c, Succeeds(true));
    var e := Next(d, CloseCallback(id));
    assert !e.identityHeld;
    hide Next, Enabled;
    RunsNone(e);
    RunsCons(d, CloseCallback(id), []);
    RunsCons(c, Succeeds(true), [CloseCallback(id)] + []);
    assert [Succeeds(true)] + ([CloseCallback(id)] + []) == [Succeeds(true), CloseCallback(id)];
    RunsAppend(NewClient(), steps, [Succeeds(true), CloseCallback(id)]);
  }

  lemma FirstConnection() returns (c1: Client, c2: Client, c3: Client)
    ensures Enabled(NewClient(), UserConnect) && c1 == Next(NewClient(), UserConnect)
    ensures Enabled(c1, SetAuto(true)) && c2 == Next(c1, SetAuto(true))
    ensures Enabled(c2, Succeeds(true)) && c3 == Next(c2, Succeeds(true))
    ensures c3.conn == Current(0) && 0 in c3.draining && c3.nextId == 1 && c3.autoReconnect && !c3.overlapped
  {
    c1 := Next(NewClient(), UserConnect);
    c2 := Next(c1, SetAuto(true));
    c3 := Next(c2, Succeeds(true));
  }

  lemma SecondConnection(c3: Client) returns (c4: Client, c5: Client, c6: Client)
    requires c3.conn == Current(0) && 0 in c3.draining && c3.nextId == 1 && c3.autoReconnect && !c3.overlapped
    ensures Enabled(c3, CloseCallback(0)) && c4 == Next(c3, CloseCallback(0))
    ensures Enabled(c4, Succeeds(true)) && c5 == Next(c4, Succeeds(true))
    ensures Enabled(c5, CloseCallback(0)) && c6 == Next(c5, CloseCallback(0))
    ensures !c6.overlapped && !c6.identityHeld
  {
    c4 := Next(c3, CloseCallback(0));
    c5 := Next(c4, Succeeds(true));
    c6 := Next(c5, CloseCallback(0));
  }

  /** A run on which it does: the first connection's second close callback comes after the reconnection. */
  lemma IdentityCanFail() returns (steps: seq<Step>)
    ensures Runs(NewClient(), steps) && !After(NewClient(), steps).overlapped && !After(NewClient(), steps).identityHeld
  {
    hide *;
    var c1, c2, c3 := FirstConnection();
    var c4, c5, c6 := SecondConnection(c3);
    RunsNone(c6);
    RunsCons(c5, CloseCallback(0), []);
    var tail := [CloseCallback(0)] + [];
    RunsCons(c4, Succeeds(true), tail);
    RunsCons(c3, CloseCallback(0), [Succeeds(true)] + tail);
    tail := [CloseCallback(0)] + ([Succeeds(true)] + tail);
    RunsCons(c2, Succeeds(true), tail);
    RunsCons(c1, SetAuto(true), [Succeeds(true)] + tail);
    RunsCons(NewClient(), UserConnect, [SetAuto(true)] + ([Succeeds(true)] + tail));
    steps := [UserConnect] + ([SetAuto(true)] + ([Succeeds(true)] + tail));
  }

  lemma RunsNone(c: Client)
    ensures Runs(c, []) && After(c, []) == c
  {
  }

  lemma RunsCons(c: Client, s: Step, rest: seq<Step>)
    requires Enabled(c, s) && Runs(Next(c, s), rest)
    ensures Runs(c, [s] + rest) && After(c, [s] + rest) == After(Next(c, s), rest)
  {
    assert ([s] + rest)[1..] == rest;
  }

  // ------------------------------------------------------------------------------------------------
  // Failing for good
  // ------------------------------------------------------------------------------------------------

  /** Nothing but failures and the waits between them. */
  ghost predicate OnlyFailures(steps: seq<Step>) {
    forall s :: s in steps ==> s == Fails || s == TimerFires
  }

  /** The attempts still to come if every one of them fails. */
  function Budget(c: Client): nat {
    if !c.autoReconnect then c.armed
    else if c.connecting + c.armed == 1 && c.reconnectingTimes <= MAX_RECONNECT_TIMES then MAX_RECONNECT_TIMES - c.reconnectingTimes
    else 0
  }

  /**
   A run of failures keeps attempts started plus attempts to come, and every step of it uses something up:
   so it ends, and when it has ended exactly the budget has been spent.
   */
  lemma {:induction false} FailuresSpendTheBudget(c: Client, steps: seq<Step>)
    requires Runs(c, steps) && OnlyFailures(steps) && CountInv(c) && !c.overlapped
    ensures var d := After(c, steps);
      d.started + Budget(d) == c.started + Budget(c) &&
      |steps| + 2 * Budget(d) + d.connecting == 2 * Budget(c) + c.connecting &&
      CountInv(d) && !d.overlapped
    decreases |steps|
  {
    if steps != [] {
      assert steps[0] in steps && (forall s :: s in steps[1..] ==> s in steps);
      FailuresSpendTheBudget(Next(c, steps[0]), steps[1..]);
    }
  }

  /** From a fresh start, exactly six attempts; from a dropped connection, exactly five. */
  lemma AttemptsBeforeGivingUp(c: Client, first: Step, steps: seq<Step>)
    requires CountInv(c) && !c.overlapped && c.autoReconnect && Enabled(c, first)
    requires (first == UserConnect && c.Activity() == 0 && c.reconnectingTimes == 0)
             || (first.CloseCallback? && c.conn == Current(first.id))
    requires Runs(Next(c, first), steps) && OnlyFailures(steps)
    ensures var d := After(Next(c, first), steps);
      d.started <= c.started + (if first == UserConnect then 6 else 5) &&
      |steps| <= (if first == UserConnect then 11 else 9) &&
      (d.connecting == 0 && d.armed == 0 ==> d.started == c.started + if first == UserConnect then 6 else 5)
  {
    FailuresSpendTheBudget(Next(c, first), steps);
  }

  /** Switched off and left alone: whatever else happens, only a wait already armed can start an attempt. */
  lemma {:induction false} SwitchedOffStops(c: Client, steps: seq<Step>)
    requires Runs(c, steps) && !c.autoReconnect
    requires forall s :: s in steps ==> s != UserConnect && s != SetAuto(true)
    ensures var d := After(c, steps);
      d.started + d.armed == c.started + c.armed &&
      (CountInv(c) && !c.overlapped ==> d.started <= c.started + 1)
    decreases |steps|
  {
    if steps != [] {
      assert steps[0] in steps && (forall s :: s in steps[1..] ==> s in steps);
      SwitchedOffStops(Next(c, steps[0]), steps[1..]);
    }
  }

  // ------------------------------------------------------------------------------------------------
  // The current connection
  // ------------------------------------------------------------------------------------------------

  /** A close callback, whichever connection it is from and whether reconnecting or not, leaves no current one. */
  lemma CloseForgets(c: Client, id: nat)
    requires Enabled(c, CloseCallback(id))
    ensures Next(c, CloseCallback(id)).conn == NoConn
    ensures Next(c, CloseCallback(id)).connecting == c.connecting + if c.conn != NoConn && c.autoReconnect then 1 else 0
  {
  }

  /** A connection established is a new one, and current until the next close callback. */
  lemma EstablishedIsCurrent(c: Client, socketOpen: bool)
    requires Enabled(c, Succeeds(socketOpen)) && IdentityInv(c)
    ensures var d := Next(c, Succeeds(socketOpen));
      d.connecting == c.connecting - 1 && d.reconnectingTimes == 0 &&
      if socketOpen then d.conn == Current(c.nextId) && c.nextId !in c.draining && d.draining == c.draining + {c.nextId} && d.notices == c.notices
      else d.conn == c.conn && d.draining == c.draining && d.notices == c.notices + [NotOpenCb]
  {
  }

  lemma {:induction false} NeverCurrentAgain(c: Client, steps: seq<Step>, id: nat)
    requires Runs(c, steps) && id < c.nextId && c.conn != Current(id)
    ensures After(c, steps).conn != Current(id)
    decreases |steps|
  {
    if steps != [] {
      NeverCurrentAgain(Next(c, steps[0]), steps[1..], id);
    }
  }

  lemma {:induction false} CalledBackIsNotCurrent(c: Client, steps: seq<Step>, id: nat)
    requires Runs(c, steps) && IdentityInv(c) && CountInv(c) && CloseCallback(id) in steps
    ensures After(c, steps).conn != Current(id)
    decreases |steps|
  {
    StepKeepsInv(c, steps[0]);
    if steps[0] == CloseCallback(id) {
      CloseForgets(c, id);
      NeverCurrentAgain(Next(c, steps[0]), steps[1..], id);
    } else {
      assert steps == [steps[0]] + steps[1..];
      hide IdentityInv, CountInv, Next, Enabled;
      CalledBackIsNotCurrent(Next(c, steps[0]), steps[1..], id);
    }
  }

  /** On every run: a connection whose close callback has run is not, and never again becomes, the current one. */
  lemma CurrentIsNotClosed(steps: seq<Step>, id: nat)
    requires Runs(NewClient(), steps) && After(NewClient(), steps).conn == Current(id)
    ensures CloseCallback(id) !in steps
  {
    if CloseCallback(id) in steps {
      CalledBackIsNotCurrent(NewClient(), steps, id);
    }
  }

  /** Disconnect closes the current connection, if there is one, and switches reconnecting off for good. */
  lemma DisconnectStops(c: Client, steps: seq<Step>)
    requires Runs(Next(c, Disconnect), steps)
    requires forall s :: s in steps ==> s != UserConnect && s != SetAuto(true)
    ensures Next(c, Disconnect).notices == c.notices + (if c.conn == NoConn then [] else [CloseCalled(c.conn.id)])
    ensures Next(c, Disconnect).conn == c.conn
    ensures var d := After(Next(c, Disconnect), steps);
      d.started + d.armed == c.started + c.armed && !d.autoReconnect
  {
    SwitchedOffStops(Next(c, Disconnect), steps);
    StaysOff(Next(c, Disconnect), steps);
  }

  lemma {:induction false} StaysOff(c: Client, steps: seq<Step>)
    requires Runs(c, steps) && !c.autoReconnect && forall s :: s in steps ==> s != SetAuto(true)
    ensures !After(c, steps).autoReconnect
    decreases |steps|
  {
    if steps != [] {
      assert steps[0] in steps && (forall s :: s in steps[1..] ==> s in steps);
      StaysOff(Next(c, steps[0]), steps[1..]);
    }
  }

  /** Only the user switches reconnecting, and each switch takes. */
  lemma SwitchTakes(c: Client, s: Step)
    requires Enabled(c, s)
    ensures Next(c, s).autoReconnect == match s case SetAuto(on) => on case Disconnect => false case _ => c.autoReconnect
  {
  }

  // ------------------------------------------------------------------------------------------------
  // The object
  // ------------------------------------------------------------------------------------------------

  class TCPClient {
    var reconnectingTimes: nat
    var autoReconnect: bool
    var conn: Current
    var nextId: nat
    ghost var connecting: nat
    ghost var armed: nat
    ghost var draining: set<nat>
    ghost var started: nat
    ghost var overlapped: bool
    ghost var drainedFirst: bool
    ghost var identityHeld: bool
    ghost var notices: seq<Notice>

    ghost function State(): Client
      reads this
    {
      Client(reconnectingTimes, autoReconnect, conn, connecting, armed, nextId, draining, started,
             overlapped, drainedFirst, identityHeld, notices)
    }

    constructor ()
      ensures State() == NewClient()
    {
      reconnectingTimes, autoReconnect, conn, nextId := 0, false, NoConn, 0;
      connecting, armed, draining, started := 0, 0, {}, 0;
      overlapped, drainedFirst, identityHeld, notices := false, true, true, [];
    }

    method Connect()
      modifies this
      ensures State() == old(State()).Connect()
    {
      connecting := connecting + 1;
      started := started + 1;
    }

    /** The completion of async_connect. */
    method ConnectDone(failed: bool, socketOpen: bool)
      requires connecting > 0
      modifies this
      ensures State() == if failed then old(State()).ConnectFailed() else old(State()).Connected(socketOpen)
    {
      connecting := connecting - 1;
      if !failed {
        reconnectingTimes := 0;
        HandleConn(socketOpen);
      } else {
        if autoReconnect && reconnectingTimes < MAX_RECONNECT_TIMES {
          armed := armed + 1;
        }
      }
    }

    method Reconnect()
      modifies this
      ensures State() == old(State()).Reconnect()
    {
      reconnectingTimes := reconnectingTimes + 1;
      Connect();
    }

    method TimerFired()
      requires armed > 0
      modifies this
      ensures State() == old(State()).TimerFired()
    {
      armed := armed - 1;
      Reconnect();
    }

    method HandleConn(socketOpen: bool)
      modifies this
      ensures State() == old(State()).HandleConn(socketOpen)
    {
      if !socketOpen {
        notices := notices + [NotOpenCb];
        return;
      }
      drainedFirst := drainedFirst && draining == {};
      draining := draining + {nextId};
      conn := Current(nextId);
      nextId := nextId + 1;
    }

    method OnRemoveConn(id: nat)
      modifies this
      ensures State() == old(State()).OnRemoveConn(id)
      ensures conn == NoConn
    {
      if conn == NoConn {
        return;
      }
      identityHeld := identityHeld && conn == Current(id);
      conn := NoConn;
      if autoReconnect {
        Reconnect();
      }
    }

    method Disconnect()
      modifies this
      ensures State() == old(State()).DisconnectInLoop()
      ensures !autoReconnect && (old(conn) != NoConn ==> notices == old(notices) + [CloseCalled(old(conn).id)])
    {
      autoReconnect := false;
      if conn != NoConn {
        notices := notices + [CloseCalled(conn.id)];
      }
    }
  }
}
