/** What becomes of the sockets of a connector, and who decides. */
module ConnectorRuns {
  import opened Connectors

  // ---- The wish to connect ----

  /** Whether the last of start(), restart() and stop() was not stop(). */
  function Wishes(before: bool, acts: seq<Action>): bool
    decreases |acts|
  {
    if |acts| == 0 then before
    else Wishes(if acts[0].CallStop? then false else before || acts[0].CallStart? || acts[0].CallRestart?, acts[1..])
  }

  /** The steps that call connect(2). */
  predicate Connects(c: ConnectorState, a: Action)
    requires Enabled(c, a)
  {
    match a
    case CallStart(inLoop, _) => inLoop
    case CallRestart(_) => true
    case TimerFires(_, _) => c.connect
    case RunFunctor(_) => c.batch[0] == StartInLoop && c.connect
    case _ => false
  }

  lemma StartTouches(c: ConnectorState, result: ConnectResult)
    ensures Start(c, result).connect == c.connect && Start(c, result).handed == c.handed
    ensures !c.connect ==> Start(c, result).created == c.created
  {
    hide Min;
  }

  lemma RetryTouches(c: ConnectorState, s: Sock)
    ensures Retry(c, s).connect == c.connect && Retry(c, s).created == c.created && Retry(c, s).handed == c.handed
  {
    hide Min;
  }

  lemma WriteTouches(c: ConnectorState, result: WriteResult)
    ensures HandleWrite(c, result).connect == c.connect && HandleWrite(c, result).created == c.created
  {
    if c.channel.Some? {
      RetryTouches(RemoveAndResetChannel(c), c.channel.value);
    }
    hide Retry;
  }

  lemma ErrorTouches(c: ConnectorState)
    ensures HandleError(c).connect == c.connect && HandleError(c).created == c.created
  {
    if c.channel.Some? {
      RetryTouches(RemoveAndResetChannel(c), c.channel.value);
    }
    hide Retry;
  }

  lemma StopTouches(c: ConnectorState)
    ensures Stop(c).connect == c.connect && Stop(c).created == c.created && Stop(c).handed == c.handed
  {
    if c.channel.Some? {
      RetryTouches(RemoveAndResetChannel(c.(state := Disconnected)), c.channel.value);
    }
    hide Retry;
  }

  lemma StepTouches(c: ConnectorState, a: Action)
    requires Enabled(c, a)
    ensures Next(c, a).connect == if a.CallStop? then false else c.connect || a.CallStart? || a.CallRestart?
    ensures !a.Dispatch? ==> Next(c, a).handed == c.handed
    ensures !Connects(c, a) ==> Next(c, a).created == c.created
  {
    hide Start, Stop, HandleWrite, HandleError;
    match a
    case CallStart(_, result) => StartTouches(c.(connect := true), result);
    case CallRestart(result) =>
      StartTouches(c.(state := Disconnected, retryDelayMs := INIT_RETRY_DELAY_MS, delays := [], connect := true),
                     result);
    case Dispatch(err, out) =>
      var d := c.(reported := false);
      ErrorTouches(d);
      if out.Some? {
        WriteTouches(if err then HandleError(d) else d, out.value);
      }
    case TimerFires(young, result) => StartTouches(Fired(c, young), result);
    case RunFunctor(result) =>
      StartTouches(c.(batch := c.batch[1..]), result);
      StopTouches(c.(batch := c.batch[1..]));
    case _ =>
  }

  lemma {:induction false} WishFollowsCalls(c: ConnectorState, acts: seq<Action>)
    requires Legal(c, acts)
    ensures Run(c, acts).connect == Wishes(c.connect, acts)
    decreases |acts|
  {
    if |acts| == 0 {
    } else {
      StepTouches(c, acts[0]);
      hide Next, Enabled;
      WishFollowsCalls(Next(c, acts[0]), acts[1..]);
    }
  }

  // ---- How an attempt ends ----

  function One(yes: bool): nat {
    if yes then 1 else 0
  }

  function Single(s: Sock, yes: bool): multiset<Sock> {
    if yes then multiset{s} else multiset{}
  }

  /** An attempt whose events say that it is established is handed over if the connector wants to connect; any other
      end closes the socket, and a wish not met sets a retry timer. Without an event to end it, it goes on. */
  lemma AttemptEnds(c: ConnectorState, err: bool, out: Option<WriteResult>)
    requires Inv(c) && Enabled(c, Dispatch(err, out))
    ensures c.channel.Some?
    ensures var d := Next(c, Dispatch(err, out)); var s := c.channel.value;
      var established := !err && out == Some(Established);
      var ended := err || out.Some?;
      && d.handed == c.handed + Single(s, established && c.connect)
      && d.closed == c.closed + Single(s, ended && !(established && c.connect))
      && (Held(d, s) <==> !ended)
      && d.state == (if established then Connected else if ended then Disconnected else Connecting)
      && Timers(d) == Timers(c) + One(ended && !established && c.connect)
      && |d.delays| == |c.delays| + One(ended && !established && c.connect)
      && d.created == c.created
  {
    hide Count, Delay, Behind, Conserved, DelaysRight, Min;
  }

  // ---- How an attempt begins ----

  /** `d` is `c` after connect(2) for one new socket, which is kept if the connection is under way; one that failed is
      closed, and tried again later if the error was a passing one. */
  predicate Made(c: ConnectorState, d: ConnectorState, result: ConnectResult) {
    var s := c.created;
    && d.created == c.created + 1 && d.handed == c.handed
    && (Held(d, s) <==> result == InProgress)
    && d.closed == c.closed + Single(s, result != InProgress)
    && d.state == (if result == InProgress then Connecting else Disconnected)
    && Timers(d) == Timers(c) + One(result == Transient)
    && |d.delays| == |c.delays| + One(result == Transient)
  }

  lemma StartMakes(c: ConnectorState, result: ConnectResult)
    requires c.connect && c.state == Disconnected
    ensures Made(c, Start(c, result), result)
  {
    hide Min;
  }

  /** A start on its way finds the connector disconnected. */
  lemma OnlyDisconnected(c: ConnectorState)
    requires Inv(c) && (Timers(c) > 0 || (c.batch != [] && c.batch[0] == StartInLoop))
    ensures c.state == Disconnected
  {
    if c.batch != [] {
      PopCounts(c);
    }
    hide Starts, Stops, Resets, Behind, Count, Queue, Conserved, DelaysRight;
  }

  /** Every calm step that calls connect(2) makes an attempt; a retry uses up its timer, and restart() counts the
      retries anew. */
  lemma AttemptBegins(c: ConnectorState, a: Action)
    requires Inv(c) && Enabled(c, a) && Calm(c, a) && Connects(c, a)
    ensures var d := if a.TimerFires? then Fired(c, a.young) else if a.CallRestart? then c.(delays := []) else c;
      Made(d, Next(c, a), a.result)
  {
    hide Inv, Start, Quiet, StopsAhead, Starts, Stops, Resets, Count;
    match a
    case CallStart(_, result) => StartMakes(c.(connect := true), result);
    case CallRestart(result) =>
      StartMakes(c.(state := Disconnected, retryDelayMs := INIT_RETRY_DELAY_MS, delays := [], connect := true), result);
    case TimerFires(young, result) =>
      OnlyDisconnected(c);
      StartMakes(Fired(c, young), result);
    case RunFunctor(result) =>
      OnlyDisconnected(c);
      StartMakes(c.(batch := c.batch[1..]), result);
  }

  /** stopInLoop closes the socket of an attempt under way, which is retried if start() has been called meanwhile, and
      does nothing else. */
  lemma StopEndsAttempt(c: ConnectorState, result: ConnectResult)
    requires Inv(c) && Enabled(c, RunFunctor(result)) && c.batch[0] == StopInLoop
    ensures var p := c.(batch := c.batch[1..]); var d := Next(c, RunFunctor(result));
      if c.state == Connecting then
        && c.channel.Some? && d.closed == c.closed + multiset{c.channel.value} && d.state == Disconnected
        && Timers(d) == Timers(c) + One(c.connect) && |d.delays| == |c.delays| + One(c.connect)
      else d == p
  {
    hide Count, Delay, Behind, Conserved, DelaysRight, Min;
  }

  // ---- Over whole runs ----

  /** The attempt on `s` is established while the connector wants to connect. */
  predicate Succeeds(c: ConnectorState, a: Action, s: Sock) {
    Held(c, s) && a == Dispatch(false, Some(Established)) && c.connect
  }

  predicate EverSucceeds(c: ConnectorState, acts: seq<Action>, s: Sock)
    requires Legal(c, acts)
    decreases |acts|
  {
    |acts| > 0 && (Succeeds(c, acts[0], s) || EverSucceeds(Next(c, acts[0]), acts[1..], s))
  }

  lemma HandedStep(c: ConnectorState, a: Action, s: Sock)
    requires Inv(c) && Enabled(c, a)
    ensures Next(c, a).handed[s] == c.handed[s] + One(Succeeds(c, a, s))
  {
    if a.Dispatch? {
      AttemptEnds(c, a.err, a.out);
      ReportedIsHeld(c);
    } else {
      StepTouches(c, a);
    }
    hide Next, Inv;
  }

  lemma ReportedIsHeld(c: ConnectorState)
    requires Inv(c) && c.reported
    ensures c.channel.Some? && Held(c, c.channel.value)
  {
    hide Count, Delay, Behind, Conserved, DelaysRight;
  }

  /** In a calm run a socket is handed over if and only if its attempt was established, with no error reported beside
      it, at a moment when the last of start(), restart() and stop() was not stop(). */
  lemma {:induction false} HandedIff(c: ConnectorState, acts: seq<Action>, s: Sock)
    requires Inv(c) && Legal(c, acts) && CalmRun(c, acts)
    ensures s in Run(c, acts).handed <==> s in c.handed || EverSucceeds(c, acts, s)
    decreases |acts|
  {
    if |acts| == 0 {
    } else {
      HandedStep(c, acts[0], s);
      StepKeeps(c, acts[0]);
      hide Inv, Next, Enabled, Calm, Succeeds;
      HandedIff(Next(c, acts[0]), acts[1..], s);
    }
  }
}
