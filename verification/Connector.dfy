/** net/Connector.cpp: one connection attempt at a time, retried after growing delays until it succeeds, fails for
    good or is stopped. */
module Connectors {

  /** Sockets are named in the order they are created. */
  type Sock = nat

  datatype State = Disconnected | Connecting | Connected

  datatype Option<T> = None | Some(value: T)

  datatype Functor = StartInLoop | StopInLoop | ResetChannel

  /** An iteration of the loop handles events, then runs the functors that were pending. */
  datatype Phase = Handling | Functors

  /** `channel` is the socket of channel_; `registered` says whether the poller knows it, `reported` whether its
      event of this iteration is still to be handled. Retry timers are young until poll returns after they were set,
      then old. `created`, `closed`, `handed` and `delays` are history: sockets
      made, closed and passed to the callback, and the delays of the retries since the last restart. `ok` falls when
      an assert does. */
  datatype ConnectorState = ConnectorState(
    connect: bool, state: State, channel: Option<Sock>, retryDelayMs: nat,
    registered: bool, reported: bool, phase: Phase, batch: seq<Functor>, pending: seq<Functor>,
    youngTimers: nat, oldTimers: nat,
    created: nat, closed: multiset<Sock>, handed: multiset<Sock>, delays: seq<nat>, ok: bool)

  const MAX_RETRY_DELAY_MS := 30 * 1000
  const INIT_RETRY_DELAY_MS := 500

  function Min(a: nat, b: nat): nat {
    if a <= b then a else b
  }

  // ---- Members ----

  function Queued(c: ConnectorState, f: Functor): ConnectorState {
    c.(pending := c.pending + [f])
  }

  function Check(c: ConnectorState, condition: bool): ConnectorState {
    c.(ok := c.ok && condition)
  }

  function Retry(c: ConnectorState, sockfd: Sock): ConnectorState {
    var d := c.(closed := c.closed + multiset{sockfd}, state := Disconnected);
    if d.connect then
      d.(youngTimers := d.youngTimers + 1, delays := d.delays + [d.retryDelayMs],
         retryDelayMs := Min(d.retryDelayMs * 2, MAX_RETRY_DELAY_MS))
    else d
  }

  /** The classes of errno that connect tells apart. */
  datatype ConnectResult = InProgress | Transient | Fatal

  function Connect(c: ConnectorState, result: ConnectResult): ConnectorState {
    var sockfd := c.created;
    var d := c.(created := c.created + 1);
    match result
    case InProgress =>
      Check(d, d.channel.None?).(state := Connecting, channel := Some(sockfd), registered := true)
    case Transient => Retry(d, sockfd)
    case Fatal => d.(closed := d.closed + multiset{sockfd})
  }

  function Start(c: ConnectorState, result: ConnectResult): ConnectorState {
    var d := Check(c, c.state == Disconnected);
    if d.connect then Connect(d, result) else d
  }

  function RemoveAndResetChannel(c: ConnectorState): ConnectorState {
    Queued(c.(registered := false), ResetChannel)
  }

  function Stop(c: ConnectorState): ConnectorState {
    if c.state == Connecting && c.channel.Some? then
      Retry(RemoveAndResetChannel(c.(state := Disconnected)), c.channel.value)
    else c
  }

  datatype WriteResult = SocketError | SelfConnect | Established

  function HandleWrite(c: ConnectorState, result: WriteResult): ConnectorState {
    if c.state == Connecting && c.channel.Some? then
      var d := RemoveAndResetChannel(c);
      var sockfd := c.channel.value;
      if !result.Established? then Retry(d, sockfd)
      else if d.connect then d.(state := Connected, handed := d.handed + multiset{sockfd})
      else d.(state := Connected, closed := d.closed + multiset{sockfd})
    else Check(c, c.state == Disconnected)
  }

  function HandleError(c: ConnectorState): ConnectorState {
    if c.state == Connecting && c.channel.Some? then Retry(RemoveAndResetChannel(c), c.channel.value) else c
  }

  // ---- Steps ----

  datatype Action =
    /** start(), from the loop's own thread or another; what connect(2) would say. */
    | CallStart(inLoop: bool, result: ConnectResult)
    | CallStop
    | CallRestart(result: ConnectResult)
    /** poll returns, with or without the channel. */
    | Poll(report: bool)
    /** One event of the channel: its error callback, then its write callback. */
    | Dispatch(err: bool, out: Option<WriteResult>)
    | TimerFires(young: bool, result: ConnectResult)
    | EndHandling
    | RunFunctor(result: ConnectResult)

  predicate Enabled(c: ConnectorState, a: Action) {
    match a
    case Poll(report) => c.phase == Functors && c.batch == [] && (report ==> c.registered)
    case Dispatch(_, _) => c.phase == Handling && c.reported
    case TimerFires(young, _) => c.phase == Handling && (if young then c.youngTimers else c.oldTimers) > 0
    case EndHandling => c.phase == Handling && !c.reported
    case RunFunctor(_) => c.phase == Functors && c.batch != []
    case _ => true
  }

  function Execute(c: ConnectorState, f: Functor, result: ConnectResult): ConnectorState {
    match f
    case StartInLoop => Start(c, result)
    case StopInLoop => Stop(c)
    case ResetChannel => c.(channel := None)
  }

  function Fired(c: ConnectorState, young: bool): ConnectorState
    requires if young then c.youngTimers > 0 else c.oldTimers > 0
  {
    if young then c.(youngTimers := c.youngTimers - 1) else c.(oldTimers := c.oldTimers - 1)
  }

  function Next(c: ConnectorState, a: Action): ConnectorState
    requires Enabled(c, a)
  {
    match a
    case CallStart(inLoop, result) =>
      var d := c.(connect := true);
      if inLoop then Start(d, result) else Queued(d, StartInLoop)
    case CallStop => Queued(c.(connect := false), StopInLoop)
    case CallRestart(result) =>
      Start(c.(state := Disconnected, retryDelayMs := INIT_RETRY_DELAY_MS, delays := [], connect := true), result)
    case Poll(report) =>
      c.(phase := Handling, reported := report, youngTimers := 0, oldTimers := c.oldTimers + c.youngTimers)
    case Dispatch(err, out) =>
      var d := c.(reported := false);
      var e := if err then HandleError(d) else d;
      if out.Some? then HandleWrite(e, out.value) else e
    case TimerFires(young, result) => Start(Fired(c, young), result)
    case EndHandling => c.(phase := Functors, batch := c.pending, pending := [])
    case RunFunctor(result) => Execute(c.(batch := c.batch[1..]), c.batch[0], result)
  }

  // ---- What every run keeps ----

  predicate Held(c: ConnectorState, s: Sock) {
    c.state == Connecting && c.channel == Some(s)
  }

  /** Each socket ever made is held, closed or handed over, once. */
  ghost predicate Conserved(c: ConnectorState) {
    forall s: Sock :: c.closed[s] + c.handed[s] + (if Held(c, s) then 1 else 0) == if s < c.created then 1 else 0
  }

  function Pow2(k: nat): nat {
    if k == 0 then 1 else 2 * Pow2(k - 1)
  }

  /** The delay of the retry after `k` others. */
  function Delay(k: nat): nat {
    Min(INIT_RETRY_DELAY_MS * Pow2(k), MAX_RETRY_DELAY_MS)
  }

  predicate DelaysRight(c: ConnectorState) {
    && c.retryDelayMs == Delay(|c.delays|)
    && forall k :: 0 <= k < |c.delays| ==> c.delays[k] == Delay(k)
  }

  function Count(q: seq<Functor>, f: Functor): nat {
    multiset(q)[f]
  }

  /** The functors of the connector, first to run first. */
  function Queue(c: ConnectorState): seq<Functor> {
    c.batch + c.pending
  }

  /** What is queued behind the first start. */
  function Behind(q: seq<Functor>): seq<Functor> {
    if |q| == 0 then [] else if q[0] == StartInLoop then q[1..] else Behind(q[1..])
  }

  function Starts(c: ConnectorState): nat {
    Count(Queue(c), StartInLoop)
  }

  function Stops(c: ConnectorState): nat {
    Count(Queue(c), StopInLoop)
  }

  function Resets(c: ConnectorState): nat {
    Count(Queue(c), ResetChannel)
  }

  function Timers(c: ConnectorState): nat {
    c.youngTimers + c.oldTimers
  }

  /** At most one of: a start on its way, a retry timer, an attempt. */
  predicate OneAttempt(c: ConnectorState) {
    Starts(c) + Timers(c) + (if c.state == Connecting then 1 else 0) <= (if c.state != Connected then 1 else 0)
  }

  /** The channel stays behind after its attempt until resetChannel runs, which is before an old timer can fire. */
  predicate ChannelInOrder(c: ConnectorState) {
    && c.registered == (c.state == Connecting)
    && (c.state == Connecting ==> c.channel.Some?)
    && Resets(c) == (if c.channel.Some? && c.state != Connecting then 1 else 0)
    && (c.reported ==> c.state == Connecting && c.phase == Handling)
    && (c.phase == Handling ==> c.batch == [])
    && (c.phase == Handling && c.oldTimers > 0 ==> c.channel.None?)
    && (c.phase == Functors && Timers(c) > 0 ==> c.channel.None? || Count(c.batch, ResetChannel) == 1)
  }

  /** Stops still queued for a connector that wants to connect run before its start, which finds nothing to stop. */
  predicate StopsAhead(c: ConnectorState) {
    Stops(c) > 0 ==> Starts(c) > 0 && StopInLoop !in Behind(Queue(c))
  }

  ghost predicate Sound(c: ConnectorState) {
    && c.ok && Conserved(c) && DelaysRight(c) && OneAttempt(c) && ChannelInOrder(c)
    && ResetChannel !in Behind(Queue(c)) && (c.connect ==> StopsAhead(c))
  }

  /** A connector that was stopped while connecting has its stop on its way. */
  ghost predicate Inv(c: ConnectorState) {
    Sound(c) && (!c.connect && c.state == Connecting ==> Stops(c) > 0)
  }

  // ---- Calm steps ----

  /** Nothing is on its way: no attempt, start, stop or retry, and channel_ has been reset. */
  predicate Quiet(c: ConnectorState) {
    c.state != Connecting && c.channel.None? && Timers(c) == 0 && Starts(c) == 0 && Stops(c) == 0
  }

  /** No attempt, start or retry is on its way; what is queued to end the last one runs before a start queued now. */
  predicate Ready(c: ConnectorState) {
    c.state == Disconnected && Timers(c) == 0 && Starts(c) == 0
  }

  /** A disconnected connector that wants to connect may do so, given what connect(2) will say. */
  predicate CanConnect(c: ConnectorState, result: ConnectResult) {
    match result
    case InProgress => Quiet(c)
    case Transient =>
      && Timers(c) == 0 && Starts(c) == 0 && Stops(c) == 0
      && (c.phase == Handling || c.channel.None? || Count(c.batch, ResetChannel) == 1)
    case Fatal => StopsAhead(c)
  }

  /** start() and restart() find a connector that can connect; a retry that goes ahead finds channel_ reset, which
      only one that fires in the very iteration that set it might not. */
  predicate Calm(c: ConnectorState, a: Action)
    requires Enabled(c, a)
  {
    match a
    case CallStart(inLoop, result) => if inLoop then c.state == Disconnected && CanConnect(c, result) else Ready(c)
    case CallRestart(result) => c.state != Connecting && CanConnect(c, result)
    case TimerFires(_, result) => !c.connect || !result.InProgress? || c.channel.None?
    case _ => true
  }

  // ---- The queue ----

  lemma {:induction false} BehindSnoc(q: seq<Functor>, f: Functor)
    ensures Behind(q + [f]) == if StartInLoop in q then Behind(q) + [f] else []
  {
    if |q| == 0 {
      assert q + [f] == [f];
    } else {
      BehindSnoc(q[1..], f);
      assert (q + [f])[1..] == q[1..] + [f];
      assert q == [q[0]] + q[1..];
    }
  }

  lemma QueuePush(c: ConnectorState, f: Functor)
    ensures var d := Queued(c, f);
      && Queue(d) == Queue(c) + [f]
      && (forall g :: Count(Queue(d), g) == Count(Queue(c), g) + (if f == g then 1 else 0))
      && Behind(Queue(d)) == if Starts(c) > 0 then Behind(Queue(c)) + [f] else []
  {
    assert Queue(Queued(c, f)) == Queue(c) + [f];
    BehindSnoc(Queue(c), f);
    hide Behind;
  }

  lemma QueuePop(c: ConnectorState)
    requires c.batch != []
    ensures var d := c.(batch := c.batch[1..]); var f := c.batch[0];
      && Queue(c) == [f] + Queue(d)
      && (forall g :: Count(Queue(c), g) == Count(Queue(d), g) + (if f == g then 1 else 0))
      && (forall g :: Count(c.batch, g) == Count(d.batch, g) + (if f == g then 1 else 0))
      && Behind(Queue(c)) == if f == StartInLoop then Queue(d) else Behind(Queue(d))
  {
    var d := c.(batch := c.batch[1..]);
    assert c.batch == [c.batch[0]] + c.batch[1..];
    assert Queue(c) == [c.batch[0]] + Queue(d);
    assert Queue(c)[1..] == Queue(d);
  }

  /** The same queue, counted. */
  lemma SameQueue(c: ConnectorState, d: ConnectorState)
    requires d.batch == c.batch && d.pending == c.pending
    ensures Queue(d) == Queue(c) && Starts(d) == Starts(c) && Stops(d) == Stops(c) && Resets(d) == Resets(c)
  {
  }

  lemma PopCounts(c: ConnectorState)
    requires c.batch != []
    ensures var d := c.(batch := c.batch[1..]); var f := c.batch[0];
      && Starts(c) == Starts(d) + (if f == StartInLoop then 1 else 0)
      && Stops(c) == Stops(d) + (if f == StopInLoop then 1 else 0)
      && Resets(c) == Resets(d) + (if f == ResetChannel then 1 else 0)
      && Count(c.batch, ResetChannel) == Count(d.batch, ResetChannel) + (if f == ResetChannel then 1 else 0)
      && Behind(Queue(c)) == (if f == StartInLoop then Queue(d) else Behind(Queue(d)))
      && |Queue(c)| == |Queue(d)| + 1
  {
    QueuePop(c);
    hide Behind, Count;
  }

  lemma PushCounts(c: ConnectorState, f: Functor)
    ensures var d := Queued(c, f);
      && Starts(d) == Starts(c) + (if f == StartInLoop then 1 else 0)
      && Stops(d) == Stops(c) + (if f == StopInLoop then 1 else 0)
      && Resets(d) == Resets(c) + (if f == ResetChannel then 1 else 0)
      && Behind(Queue(d)) == (if Starts(c) > 0 then Behind(Queue(c)) + [f] else [])
  {
    QueuePush(c, f);
    hide Behind, Count;
  }

  lemma SameSockets(c: ConnectorState, d: ConnectorState)
    requires Conserved(c) && d.closed == c.closed && d.handed == c.handed && d.created == c.created
    requires d.state == c.state || (c.state != Connecting && d.state != Connecting)
    requires c.state == Connecting ==> d.channel == c.channel
    ensures Conserved(d)
  {
  }

  lemma NothingBehind(c: ConnectorState)
    requires Starts(c) == 0
    ensures Behind(Queue(c)) == []
  {
    assert StartInLoop !in Queue(c);
    NoStartBehind(Queue(c));
  }

  lemma {:induction false} NoStartBehind(q: seq<Functor>)
    requires StartInLoop !in q
    ensures Behind(q) == []
  {
    if |q| > 0 {
      assert q[0] in q;
      NoStartBehind(q[1..]);
    }
  }

  // ---- Calm steps keep the invariant ----

  /** Doubling under the cap is the cap of doubling. */
  lemma NextDelay(k: nat)
    ensures Delay(k + 1) == Min(Delay(k) * 2, MAX_RETRY_DELAY_MS)
  {
  }

  lemma RetryDelays(c: ConnectorState, sockfd: Sock)
    requires DelaysRight(c)
    ensures DelaysRight(Retry(c, sockfd))
  {
    NextDelay(|c.delays|);
    hide Delay, Min;
  }

  lemma StartKeeps(c: ConnectorState, result: ConnectResult)
    requires Inv(c) && c.state == Disconnected && (c.connect ==> CanConnect(c, result))
    ensures Inv(Start(c, result))
  {
    hide Inv, Quiet, StopsAhead;
    if !c.connect {
      OkInv(c);
      assert Start(c, result) == c;
    } else {
      match result
      case InProgress => InProgressKeeps(c);
      case Transient => TransientKeeps(c);
      case Fatal => FatalKeeps(c);
    }
  }

  lemma InProgressKeeps(c: ConnectorState)
    requires Inv(c) && c.state == Disconnected && c.connect && Quiet(c)
    ensures Inv(Start(c, InProgress))
  {
    StartConserves(c, InProgress);
    hide DelaysRight, Delay, Count, Behind, Conserved;
    assert Queue(Start(c, InProgress)) == Queue(c);
    SameDelays(c, Start(c, InProgress));
  }

  lemma TransientKeeps(c: ConnectorState)
    requires Inv(c) && c.state == Disconnected && c.connect && CanConnect(c, Transient)
    ensures Inv(Start(c, Transient))
  {
    StartConserves(c, Transient);
    RetryDelays(c.(created := c.created + 1), c.created);
    hide DelaysRight, Count, Behind, Conserved, Min;
    assert Queue(Start(c, Transient)) == Queue(c);
  }

  lemma FatalKeeps(c: ConnectorState)
    requires Inv(c) && c.state == Disconnected && c.connect && CanConnect(c, Fatal)
    ensures Inv(Start(c, Fatal))
  {
    StartConserves(c, Fatal);
    hide DelaysRight, Count, Behind, Conserved;
    assert Queue(Start(c, Fatal)) == Queue(c);
    SameDelays(c, Start(c, Fatal));
  }

  lemma SameDelays(c: ConnectorState, d: ConnectorState)
    requires DelaysRight(c) && d.delays == c.delays && d.retryDelayMs == c.retryDelayMs
    ensures DelaysRight(d)
  {
    hide Delay;
  }

  lemma StartConserves(c: ConnectorState, result: ConnectResult)
    requires Conserved(c) && c.state == Disconnected
    ensures Conserved(Start(c, result))
  {
    hide Min;
  }

  /** The end of an attempt: the channel stays behind with its reset queued. */
  lemma AttemptEnds(c: ConnectorState)
    requires Sound(c) && c.state == Connecting && !c.reported
    requires c.phase == Handling || !c.connect
    ensures c.channel.Some? && Inv(Retry(RemoveAndResetChannel(c), c.channel.value))
  {
    hide DelaysRight, Conserved, Starts, Stops, Resets, Queue, Behind, Min, Count;
    var w := c.(registered := false);
    var d := RemoveAndResetChannel(c);
    var r := Retry(d, c.channel.value);
    SameQueue(c, w);
    PushCounts(w, ResetChannel);
    SameQueue(d, r);
    SameDelays(c, d);
    RetryDelays(d, c.channel.value);
    EndConserves(c);
  }

  lemma EndConserves(c: ConnectorState)
    requires Conserved(c) && c.state == Connecting && c.channel.Some?
    ensures Conserved(Retry(RemoveAndResetChannel(c), c.channel.value))
  {
    hide Min;
  }

  lemma Succeeds(c: ConnectorState)
    requires Inv(c) && c.state == Connecting && !c.reported && c.phase == Handling
    ensures Inv(HandleWrite(c, Established))
  {
    hide DelaysRight, Conserved, Starts, Stops, Resets, Queue, Behind, Count;
    var w := c.(registered := false);
    var r := HandleWrite(c, Established);
    SameQueue(c, w);
    PushCounts(w, ResetChannel);
    SameQueue(RemoveAndResetChannel(c), r);
    SameDelays(c, r);
    SuccessConserves(c);
  }

  lemma SuccessConserves(c: ConnectorState)
    requires Conserved(c) && c.state == Connecting && c.channel.Some?
    ensures Conserved(HandleWrite(c, Established))
  {
  }

  lemma DispatchKeeps(c: ConnectorState, err: bool, out: Option<WriteResult>)
    requires Inv(c) && Enabled(c, Dispatch(err, out))
    ensures Inv(Next(c, Dispatch(err, out)))
  {
    var d := c.(reported := false);
    assert Inv(d) by {
      SameQueue(c, d);
      SameDelays(c, d);
      SameSockets(c, d);
      hide DelaysRight, Conserved, Starts, Stops, Resets, Queue, Count, Behind;
    }
    assert d.state == Connecting && d.channel.Some?;
    hide Inv, OneAttempt, ChannelInOrder, Retry, RemoveAndResetChannel, DelaysRight, Behind;
    if err || (out.Some? && !out.value.Established?) {
      AttemptEnds(d);
      if err && out.Some? {
        AfterEnd(d, out);
      }
    } else if out.Some? {
      Succeeds(d);
    }
  }

  /** A write event after the error event of the same dispatch finds nothing to do. */
  lemma AfterEnd(c: ConnectorState, out: Option<WriteResult>)
    requires c.state == Connecting && c.channel.Some? && out.Some?
    ensures HandleWrite(HandleError(c), out.value) == HandleError(c)
  {
  }

  lemma TimerKeeps(c: ConnectorState, young: bool, result: ConnectResult)
    requires Inv(c) && Enabled(c, TimerFires(young, result)) && Calm(c, TimerFires(young, result))
    ensures Inv(Next(c, TimerFires(young, result)))
  {
    var d := Fired(c, young);
    assert Inv(d) && d.state == Disconnected && (d.connect ==> CanConnect(d, result)) by {
      SameQueue(c, d);
      SameDelays(c, d);
      SameSockets(c, d);
      hide DelaysRight, Conserved, Starts, Stops, Resets, Queue, Count, Behind;
    }
    hide Inv, Start, CanConnect;
    StartKeeps(d, result);
  }

  lemma FunctorKeeps(c: ConnectorState, result: ConnectResult)
    requires Inv(c) && Enabled(c, RunFunctor(result))
    ensures Inv(Next(c, RunFunctor(result)))
  {
    hide Inv, Start, Stop;
    match c.batch[0] {
      case StartInLoop => StartRuns(c, result);
      case StopInLoop => StopRuns(c);
      case ResetChannel => ResetRuns(c);
    }
  }

  lemma StartRuns(c: ConnectorState, result: ConnectResult)
    requires Inv(c) && c.batch != [] && c.batch[0] == StartInLoop
    ensures Inv(Start(c.(batch := c.batch[1..]), result))
  {
    var d := c.(batch := c.batch[1..]);
    PopCounts(c);
    QueueIs(d);
    assert Starts(d) == 0 && Resets(d) == 0 && (c.connect ==> Stops(d) == 0) by {
      hide Conserved, DelaysRight, Behind;
    }
    NothingBehind(d);
    assert Inv(d) && d.state == Disconnected && (d.connect ==> CanConnect(d, result)) by {
      SameDelays(c, d);
      SameSockets(c, d);
      hide DelaysRight, Conserved, Starts, Stops, Resets, Queue, Count, Behind;
    }
    hide Inv, Start, CanConnect;
    StartKeeps(d, result);
  }

  lemma QueueIs(c: ConnectorState)
    ensures (Stops(c) == 0 <==> StopInLoop !in Queue(c)) && (Resets(c) == 0 <==> ResetChannel !in Queue(c))
  {
  }

  lemma StopRuns(c: ConnectorState)
    requires Inv(c) && c.batch != [] && c.batch[0] == StopInLoop && c.phase == Functors
    ensures Inv(Stop(c.(batch := c.batch[1..])))
  {
    var d := c.(batch := c.batch[1..]);
    PopCounts(c);
    SameDelays(c, d);
    SameSockets(c, d);
    assert Sound(d) && !d.reported && (d.connect ==> d.state != Connecting) by {
      hide DelaysRight, Conserved, Starts, Stops, Resets, Queue, Count, Behind;
    }
    if d.state == Connecting {
      hide Inv, Sound;
      AttemptEnds(d);
      StopEnds(d);
    } else {
      hide Sound;
    }
  }

  lemma ResetRuns(c: ConnectorState)
    requires Inv(c) && c.batch != [] && c.batch[0] == ResetChannel && c.phase == Functors
    ensures Inv(c.(batch := c.batch[1..], channel := None))
  {
    var d := c.(batch := c.batch[1..]);
    var r := d.(channel := None);
    PopCounts(c);
    SameQueue(d, r);
    SameDelays(c, r);
    assert c.state != Connecting by {
      hide DelaysRight, Conserved, Starts, Stops, Queue, Behind;
    }
    SameSockets(c, r);
    hide DelaysRight, Conserved, Starts, Stops, Resets, Queue, Count, Behind;
  }

  /** stopInLoop ends an attempt as a retry does. */
  lemma StopEnds(c: ConnectorState)
    requires c.state == Connecting && c.channel.Some?
    ensures Stop(c) == Retry(RemoveAndResetChannel(c), c.channel.value)
  {
  }

  lemma PhaseKeeps(c: ConnectorState, a: Action)
    requires Inv(c) && Enabled(c, a) && (a.Poll? || a.EndHandling?)
    ensures Inv(Next(c, a))
  {
    var d := Next(c, a);
    assert Queue(d) == Queue(c);
    BatchIsQueue(c);
    BatchIsQueue(d);
    hide DelaysRight, Conserved, Queue, Count, Behind;
    SameDelays(c, d);
    SameSockets(c, d);
  }

  lemma BatchIsQueue(c: ConnectorState)
    ensures c.pending == [] ==> Resets(c) == Count(c.batch, ResetChannel)
    ensures c.batch == [] ==> Count(c.batch, ResetChannel) == 0
  {
  }

  lemma StopCallKeeps(c: ConnectorState)
    requires Inv(c)
    ensures Inv(Next(c, CallStop))
  {
    hide DelaysRight, Conserved, Starts, Stops, Resets, Queue, Count, Behind;
    var w := c.(connect := false);
    var d := Queued(w, StopInLoop);
    SameQueue(c, w);
    PushCounts(w, StopInLoop);
    SameDelays(c, d);
    SameSockets(c, d);
  }

  lemma StepKeeps(c: ConnectorState, a: Action)
    requires Inv(c) && Enabled(c, a) && Calm(c, a)
    ensures Inv(Next(c, a))
  {
    hide Inv, Next;
    match a
    case Dispatch(err, out) => DispatchKeeps(c, err, out);
    case TimerFires(young, result) => TimerKeeps(c, young, result);
    case RunFunctor(result) => FunctorKeeps(c, result);
    case Poll(_) => PhaseKeeps(c, a);
    case EndHandling => PhaseKeeps(c, a);
    case CallStart(inLoop, result) => StartCallKeepsIff(c, inLoop, result);
    case CallStop => StopCallKeeps(c);
    case CallRestart(result) => RestartCallKeepsIff(c, result);
  }

  // ---- Calm is exactly what the invariant needs ----

  lemma StartCallKeepsIff(c: ConnectorState, inLoop: bool, result: ConnectResult)
    requires Inv(c)
    ensures Inv(Next(c, CallStart(inLoop, result))) <==> Calm(c, CallStart(inLoop, result))
  {
    if inLoop {
      StartNowIff(c, c.(connect := true), result);
    } else {
      QueuedStartIff(c);
    }
  }

  lemma QueuedStartIff(c: ConnectorState)
    requires Inv(c)
    ensures Inv(Queued(c.(connect := true), StartInLoop)) <==> Ready(c)
  {
    hide DelaysRight, Conserved, Starts, Stops, Resets, Queue, Count, Behind;
    var w := c.(connect := true);
    var d := Queued(w, StartInLoop);
    SameQueue(c, w);
    PushCounts(w, StartInLoop);
    SameDelays(c, d);
    SameSockets(c, d);
  }

  /** Connecting at once, after `c` has been set to want it. */
  lemma StartNowIff(c: ConnectorState, d: ConnectorState, result: ConnectResult)
    requires Inv(c) && d == c.(connect := true)
    ensures Inv(Start(d, result)) <==> d.state == Disconnected && CanConnect(d, result)
  {
    SameQueue(c, d);
    SameQueue(d, Start(d, result));
    if d.state == Disconnected && CanConnect(d, result) {
      assert Inv(d) by {
        SameDelays(c, d);
        SameSockets(c, d);
        hide DelaysRight, Conserved, Starts, Stops, Resets, Queue, Count, Behind;
      }
      hide Inv, Start, CanConnect;
      StartKeeps(d, result);
    } else {
      hide DelaysRight, Conserved, Starts, Stops, Resets, Queue, Count, Behind;
    }
  }

  lemma RestartCallKeepsIff(c: ConnectorState, result: ConnectResult)
    requires Inv(c)
    ensures Inv(Next(c, CallRestart(result))) <==> Calm(c, CallRestart(result))
  {
    var r := c.(state := Disconnected, retryDelayMs := INIT_RETRY_DELAY_MS, delays := []);
    if c.state == Connecting {
      RestartWhileConnecting(c, r.(connect := true), result);
      hide Inv, Start, CanConnect;
    } else {
      RestartedInv(c, r);
      hide Inv, Start, Starts, Stops, Resets, Queue, Count, Behind;
      StartNowIff(r, r.(connect := true), result);
      SameQueue(c, r.(connect := true));
    }
  }

  lemma RestartWhileConnecting(c: ConnectorState, d: ConnectorState, result: ConnectResult)
    requires Inv(c) && c.state == Connecting && d.registered == c.registered && d.channel == c.channel
    requires d.state == Disconnected && d.connect
    ensures !Inv(Start(d, result))
  {
    hide DelaysRight, Conserved, Starts, Stops, Resets, Queue, Count, Behind, OneAttempt;
  }

  lemma RestartedInv(c: ConnectorState, r: ConnectorState)
    requires Inv(c) && c.state != Connecting
    requires r == c.(state := Disconnected, retryDelayMs := INIT_RETRY_DELAY_MS, delays := [])
    ensures Inv(r)
  {
    hide DelaysRight, Conserved, Starts, Stops, Resets, Queue, Count, Behind;
    SameQueue(c, r);
    FreshDelays(r);
    SameSockets(c, r);
  }

  lemma FreshDelays(c: ConnectorState)
    requires c.retryDelayMs == INIT_RETRY_DELAY_MS && c.delays == []
    ensures DelaysRight(c)
  {
    assert Pow2(0) == 1;
    assert Delay(0) == INIT_RETRY_DELAY_MS;
  }

  /** A step keeps the invariant if and only if it is calm. */
  lemma StepKeepsIff(c: ConnectorState, a: Action)
    requires Inv(c) && Enabled(c, a)
    ensures Inv(Next(c, a)) <==> Calm(c, a)
  {
    hide Inv, Next;
    match a
    case CallStart(inLoop, result) => StartCallKeepsIff(c, inLoop, result);
    case CallRestart(result) => RestartCallKeepsIff(c, result);
    case TimerFires(young, result) =>
      if Calm(c, a) {
        StepKeeps(c, a);
      } else {
        TimerInOrderIff(c, young, result);
        OkInv(Next(c, a));
      }
    case _ => StepKeeps(c, a);
  }

  lemma OkInv(c: ConnectorState)
    ensures Inv(c) ==> c.ok
  {
  }

  /** When a retry timer fires, its attempt finds channel_ null, as connecting() asserts, if and only if it is not
      to connect after all, the connect fails at once, or the reset of the last channel has run, as it has
      unless the timer fires in the iteration that set it. */
  lemma TimerInOrderIff(c: ConnectorState, young: bool, result: ConnectResult)
    requires Inv(c) && Enabled(c, TimerFires(young, result))
    ensures Next(c, TimerFires(young, result)).ok <==> !c.connect || !result.InProgress? || c.channel.None?
    ensures !young ==> c.channel.None?
  {
    hide Count, Delay, Behind;
  }

  /** What connect(2) will say is not known to a caller: start() in the loop is right whatever it says if and only
      if the connector is disconnected and quiet, start() from elsewhere if and only if it is ready. */
  lemma StartsRightIff(c: ConnectorState, inLoop: bool)
    requires Inv(c)
    ensures (forall result :: Inv(Next(c, CallStart(inLoop, result)))) <==>
            if inLoop then Quiet(c) && c.state == Disconnected else Ready(c)
  {
    hide Inv, Next, Quiet, Ready;
    forall result
      ensures Inv(Next(c, CallStart(inLoop, result))) <==> Calm(c, CallStart(inLoop, result))
    {
      StartCallKeepsIff(c, inLoop, result);
    }
    QuietCanConnect(c);
    assert Calm(c, CallStart(inLoop, InProgress)) <==> if inLoop then Quiet(c) && c.state == Disconnected else Ready(c);
  }

  lemma QuietCanConnect(c: ConnectorState)
    ensures Quiet(c) ==> c.state != Connecting && forall result :: CanConnect(c, result)
  {
  }

  /** And restart() if and only if it is quiet. */
  lemma RestartsRightIff(c: ConnectorState)
    requires Inv(c)
    ensures (forall result :: Inv(Next(c, CallRestart(result)))) <==> Quiet(c)
  {
    hide Inv, Next, Quiet;
    forall result
      ensures Inv(Next(c, CallRestart(result))) <==> Calm(c, CallRestart(result))
    {
      RestartCallKeepsIff(c, result);
    }
    QuietCanConnect(c);
    assert Calm(c, CallRestart(InProgress)) <==> Quiet(c);
  }

  /** The asserts of the call itself ask for less: channel_ must have been reset, and start() must find the
      connector disconnected. */
  lemma CallAssertsIff(c: ConnectorState)
    requires Inv(c)
    ensures (forall result :: Next(c, CallRestart(result)).ok) <==> c.channel.None?
    ensures (forall result :: Next(c, CallStart(true, result)).ok) <==> c.state == Disconnected && c.channel.None?
  {
    OkInv(c);
    hide Inv;
    assert Next(c, CallRestart(InProgress)).ok <==> c.channel.None?;
    assert Next(c, CallStart(true, InProgress)).ok <==> c.state == Disconnected && c.channel.None?;
  }

  // ---- Runs ----

  const INITIAL := ConnectorState(
    false, Disconnected, None, INIT_RETRY_DELAY_MS, false, false, Functors, [], [], 0, 0,
    0, multiset{}, multiset{}, [], true)

  predicate Legal(c: ConnectorState, acts: seq<Action>)
    decreases |acts|
  {
    |acts| == 0 || (Enabled(c, acts[0]) && Legal(Next(c, acts[0]), acts[1..]))
  }

  predicate CalmRun(c: ConnectorState, acts: seq<Action>)
    requires Legal(c, acts)
    decreases |acts|
  {
    |acts| == 0 || (Calm(c, acts[0]) && CalmRun(Next(c, acts[0]), acts[1..]))
  }

  function Run(c: ConnectorState, acts: seq<Action>): ConnectorState
    requires Legal(c, acts)
    decreases |acts|
  {
    if |acts| == 0 then c else Run(Next(c, acts[0]), acts[1..])
  }

  lemma {:induction false} RunKeeps(c: ConnectorState, acts: seq<Action>)
    requires Inv(c) && Legal(c, acts) && CalmRun(c, acts)
    ensures Inv(Run(c, acts))
    decreases |acts|
  {
    hide Inv, Enabled, Calm, Next;
    if |acts| == 0 {
    } else {
      StepKeeps(c, acts[0]);
      RunKeeps(Next(c, acts[0]), acts[1..]);
    }
  }

  lemma InitialInv()
    ensures Inv(INITIAL)
  {
    IdleInv(INITIAL);
    hide Inv;
  }

  lemma IdleInv(c: ConnectorState)
    requires c.batch == [] && c.pending == [] && c.youngTimers == c.oldTimers == 0 && c.phase == Functors && c.ok
    requires c.state == Disconnected && c.channel == None && !c.registered && !c.reported
    requires c.retryDelayMs == INIT_RETRY_DELAY_MS && c.delays == []
    requires c.created == 0 && c.closed == c.handed == multiset{}
    ensures Inv(c)
  {
    hide DelaysRight, Starts, Stops, Resets, Queue, Behind, Count;
    FreshDelays(c);
    NothingQueued(c);
  }

  lemma NothingQueued(c: ConnectorState)
    requires c.batch == [] && c.pending == []
    ensures Starts(c) == 0 && Stops(c) == 0 && Resets(c) == 0 && Behind(Queue(c)) == []
  {
  }

  /** In every calm run no assert fails, channel_ being null at each new attempt among them; each socket created is
      closed or handed over exactly once, unless it is the one held, and one is held exactly in kConnecting. */
  lemma SocketsConserved(acts: seq<Action>, s: Sock)
    requires Legal(INITIAL, acts) && CalmRun(INITIAL, acts)
    ensures var c := Run(INITIAL, acts);
      && c.ok
      && (s < c.created ==> c.closed[s] + c.handed[s] + (if Held(c, s) then 1 else 0) == 1)
      && (s >= c.created ==> s !in c.closed && s !in c.handed && !Held(c, s))
      && (c.state == Connecting <==> exists h: Sock :: Held(c, h))
  {
    InitialInv();
    RunKeeps(INITIAL, acts);
    var c := Run(INITIAL, acts);
    hide Run, Legal, CalmRun, DelaysRight, Count;
    assert Conserved(c);
    if c.state == Connecting {
      assert Held(c, c.channel.value);
    }
  }

  /** The retry after `k` others waits 500 ms times two to the `k`, but no longer than 30 s. */
  lemma DelayDoubles(acts: seq<Action>, k: nat)
    requires Legal(INITIAL, acts) && CalmRun(INITIAL, acts) && k < |Run(INITIAL, acts).delays|
    ensures Run(INITIAL, acts).delays[k] == Min(500 * Pow2(k), 30000)
  {
    InitialInv();
    RunKeeps(INITIAL, acts);
    hide Run, Legal, CalmRun, Conserved, Count;
  }

  lemma StoppedStep(c: ConnectorState, a: Action)
    requires !c.connect && Enabled(c, a) && !a.CallStart? && !a.CallRestart?
    ensures var d := Next(c, a); !d.connect && d.created == c.created && d.handed == c.handed
  {
    hide Min;
    if a.Dispatch? {
      hide Start, Stop, Execute, Fired;
    } else if a.RunFunctor? {
      hide HandleWrite, HandleError, Fired;
    } else {
      hide HandleWrite, HandleError, Stop, Execute;
    }
  }

  predicate NoStart(acts: seq<Action>) {
    forall a :: a in acts ==> !a.CallStart? && !a.CallRestart?
  }

  /** Nothing is connected or handed over after stop(), whatever was on its way, until the next start. */
  lemma {:induction false} StoppedRun(c: ConnectorState, acts: seq<Action>)
    requires !c.connect && Legal(c, acts) && NoStart(acts)
    ensures var d := Run(c, acts); !d.connect && d.created == c.created && d.handed == c.handed
    decreases |acts|
  {
    hide Inv, Enabled, Calm, Next;
    if |acts| == 0 {
    } else {
      assert acts[0] in acts;
      StoppedStep(c, acts[0]);
      StoppedRun(Next(c, acts[0]), acts[1..]);
    }
  }

  /** Once the loop has run its stopInLoop, a stopped connector holds no socket: all are closed or handed over. */
  lemma StopReleases(acts: seq<Action>, s: Sock)
    requires Legal(INITIAL, acts) && CalmRun(INITIAL, acts)
    requires var c := Run(INITIAL, acts);
      !c.connect && Stops(c) == 0 && s < c.created
    ensures var c := Run(INITIAL, acts); c.state != Connecting && c.closed[s] + c.handed[s] == 1
  {
    InitialInv();
    RunKeeps(INITIAL, acts);
    var c := Run(INITIAL, acts);
    hide Run, Legal, CalmRun, DelaysRight, Count;
    assert Conserved(c);
  }

  lemma Ahead(c: ConnectorState, a: Action, d: ConnectorState, rest: seq<Action>)
    requires Enabled(c, a) && Next(c, a) == d && Legal(d, rest)
    ensures Legal(c, [a] + rest) && Run(c, [a] + rest) == Run(d, rest)
  {
    hide Enabled, Next;
    assert ([a] + rest)[1..] == rest;
  }

  // ---- The same over the asserts of all that may follow ----

  /** What may follow a call when nobody calls start or restart again, and no handler outlasts a retry delay. */
  predicate Prompt(acts: seq<Action>) {
    forall a :: a in acts ==> !a.CallStart? && !a.CallRestart? && (a.TimerFires? ==> !a.young)
  }

  /** No assert fails from here on, whatever happens, stops included. */
  ghost predicate Safe(c: ConnectorState) {
    forall acts :: Legal(c, acts) && Prompt(acts) ==> Run(c, acts).ok
  }

  lemma {:induction false} PromptIsCalm(c: ConnectorState, acts: seq<Action>)
    requires Inv(c) && Legal(c, acts) && Prompt(acts)
    ensures CalmRun(c, acts)
    decreases |acts|
  {
    if |acts| > 0 {
      assert acts[0] in acts;
      if acts[0].TimerFires? {
        TimerInOrderIff(c, acts[0].young, acts[0].result);
      }
      hide Inv, Next;
      StepKeeps(c, acts[0]);
      PromptIsCalm(Next(c, acts[0]), acts[1..]);
    }
  }

  lemma InvIsSafe(c: ConnectorState)
    requires Inv(c)
    ensures Safe(c)
  {
    forall acts | Legal(c, acts) && Prompt(acts)
      ensures Run(c, acts).ok
    {
      PromptIsCalm(c, acts);
      RunKeeps(c, acts);
      hide Run, Legal, Prompt, CalmRun;
    }
  }

  /** A start is queued, and no reset before it. */
  predicate StartComes(q: seq<Functor>) {
    |q| > 0 && (q[0] == StartInLoop || (q[0] == StopInLoop && StartComes(q[1..])))
  }

  /** A retry timer fires before a reset can run. */
  predicate TimerComes(c: ConnectorState) {
    && Timers(c) > 0
    && if c.phase == Handling then c.oldTimers > 0 || ResetChannel !in Queue(c) else ResetChannel !in c.batch
  }

  /** An attempt nobody takes back in time meets a second one: a retry timer fires, or a queued start runs, before
      channel_ is reset; or a queued stop ends the attempt and so sets a retry timer; or a start finds the connector
      connected. */
  predicate Doomed(c: ConnectorState) {
    || !c.ok
    || (&& c.connect && (c.phase == Handling ==> c.batch == [])
        && (|| (c.state == Connected && StartInLoop in Queue(c))
            || (c.channel.Some? && TimerComes(c))
            || (c.channel.Some? && StartComes(Queue(c)))
            || (c.channel.Some? && c.state == Connecting && StopInLoop in Queue(c) && ResetChannel !in Queue(c))))
  }

  /** Two attempts are on their way, one of them a queued start. */
  predicate TwoOnTheWay(c: ConnectorState) {
    && c.connect && c.state == Disconnected && (c.phase == Handling ==> c.batch == [])
    && StartInLoop in Queue(c) && Starts(c) + Timers(c) >= 2
    && Resets(c) <= (if c.channel.Some? then 1 else 0)
  }

  /** What the loop does next when no event comes; every connect is under way at once. */
  function Forced(c: ConnectorState): Action {
    if c.phase == Handling then
      if c.reported then Dispatch(false, None)
      else if c.oldTimers > 0 then TimerFires(false, InProgress)
      else EndHandling
    else if c.batch != [] then RunFunctor(InProgress)
    else Poll(false)
  }

  /** An upper bound for the steps left. */
  function Far(c: ConnectorState): nat {
    8 * |Queue(c)| + (if c.state == Connecting then 16 else 0) +
    if c.phase == Handling then (if c.oldTimers > 0 then 0 else 3) + (if c.reported then 1 else 0)
    else if c.batch != [] || Timers(c) > 0 then 2 else 5
  }

  lemma {:induction false} StartComesSnoc(q: seq<Functor>, f: Functor)
    requires StartComes(q)
    ensures StartComes(q + [f])
  {
    assert (q + [f])[0] == q[0];
    if q[0] != StartInLoop {
      StartComesSnoc(q[1..], f);
      assert (q + [f])[1..] == q[1..] + [f];
    }
  }

  lemma {:induction false} NoResetStartComes(q: seq<Functor>)
    requires StartInLoop in q && ResetChannel !in q
    ensures StartComes(q)
  {
    if q[0] != StartInLoop {
      assert q[0] in q && q == [q[0]] + q[1..];
      NoResetStartComes(q[1..]);
    }
  }

  lemma DoomedFunctor(c: ConnectorState)
    requires Doomed(c) && c.ok && c.phase == Functors && c.batch != []
    ensures var d := Next(c, RunFunctor(InProgress)); Doomed(d) && (d.ok ==> Far(d) < Far(c))
  {
    var f := c.batch[0];
    var p := c.(batch := c.batch[1..]);
    var d := Next(c, RunFunctor(InProgress));
    QueuePop(c);
    assert c.batch == [f] + p.batch;
    assert Queue(c)[1..] == Queue(p);
    if d.ok {
      if f == StopInLoop && c.state == Connecting && c.channel.Some? {
        assert Queue(d) == Queue(p) + [ResetChannel];
        if StartComes(Queue(p)) {
          StartComesSnoc(Queue(p), ResetChannel);
        }
      } else {
        assert Queue(d) == Queue(p);
      }
    }
    hide Behind, Count;
  }

  lemma DoomedStep(c: ConnectorState)
    requires Doomed(c) && c.ok
    ensures Enabled(c, Forced(c))
    ensures var d := Next(c, Forced(c)); Doomed(d) && (d.ok ==> Far(d) < Far(c))
  {
    hide StartComes;
    if c.phase == Functors && c.batch != [] {
      DoomedFunctor(c);
    } else {
      hide Behind, Count;
      if c.phase == Functors || c.reported || c.oldTimers == 0 {
        assert Queue(Next(c, Forced(c))) == Queue(c);
        StartIsThere(Queue(c));
      }
    }
  }

  lemma StartIsThere(q: seq<Functor>)
    ensures StartComes(q) ==> |q| > 0
  {
  }

  /** Left alone, the loop comes to the failing assert. */
  lemma {:induction false} Dooms(c: ConnectorState) returns (acts: seq<Action>)
    requires Doomed(c)
    ensures Legal(c, acts) && Prompt(acts) && !Run(c, acts).ok
    decreases if c.ok then Far(c) + 1 else 0
  {
    acts := [];
    if c.ok {
      DoomedStep(c);
      hide Doomed, Enabled, Next, Far;
      var rest := Dooms(Next(c, Forced(c)));
      acts := [Forced(c)] + rest;
      Ahead(c, Forced(c), Next(c, Forced(c)), rest);
    }
  }

  lemma TwoStep(c: ConnectorState)
    requires TwoOnTheWay(c)
    ensures Enabled(c, Forced(c))
    ensures var d := Next(c, Forced(c)); Doomed(d) || (TwoOnTheWay(d) && Far(d) < Far(c))
  {
    if c.phase == Functors && c.batch != [] {
      TwoFunctor(c);
      hide Doomed, TwoOnTheWay, Far;
    } else if c.phase == Handling && !c.reported && c.oldTimers > 0 {
      TwoTimer(c);
      hide Doomed, TwoOnTheWay, Far;
    } else {
      TwoGoOn(c);
      hide Doomed, TwoOnTheWay, Far;
    }
  }

  lemma TwoGoOn(c: ConnectorState)
    requires TwoOnTheWay(c) && !(c.phase == Functors && c.batch != [])
    requires !(c.phase == Handling && !c.reported && c.oldTimers > 0)
    ensures Enabled(c, Forced(c))
    ensures var d := Next(c, Forced(c)); TwoOnTheWay(d) && Far(d) < Far(c)
  {
    hide Behind, Count;
    var d := Next(c, Forced(c));
    assert Queue(d) == Queue(c) && |Queue(c)| > 0;
  }

  lemma TwoTimer(c: ConnectorState)
    requires TwoOnTheWay(c) && c.phase == Handling && c.oldTimers > 0
    ensures Doomed(Next(c, TimerFires(false, InProgress)))
  {
    var d := Next(c, TimerFires(false, InProgress));
    SameQueue(c, d);
    QueueIs(c);
    if c.channel.None? {
      NoResetStartComes(Queue(c));
    }
    hide Behind, StartComes, Queue, Count;
  }

  lemma TwoFunctor(c: ConnectorState)
    requires TwoOnTheWay(c) && c.phase == Functors && c.batch != []
    ensures var d := Next(c, RunFunctor(InProgress)); Doomed(d) || (TwoOnTheWay(d) && Far(d) < Far(c))
  {
    var p := c.(batch := c.batch[1..]);
    if c.batch[0] == StartInLoop {
      hide TwoOnTheWay, Doomed, Start;
      TwoStarts(c, p);
    } else {
      PopCounts(c);
      QueueIs2(c);
      var d := Next(c, RunFunctor(InProgress));
      SameQueue(p, d);
      QueueIs2(p);
      hide Doomed, Queue, Starts, Stops, Resets, Behind, Count;
    }
  }

  lemma QueueIs2(c: ConnectorState)
    ensures Starts(c) > 0 <==> StartInLoop in Queue(c)
  {
  }

  /** The first of the two connects; the second is still on its way, with no reset before it. */
  lemma TwoStarts(c: ConnectorState, p: ConnectorState)
    requires TwoOnTheWay(c) && c.phase == Functors && c.batch != [] && c.batch[0] == StartInLoop
    requires p == c.(batch := c.batch[1..])
    ensures Doomed(Start(p, InProgress))
  {
    QueuePop(c);
    var d := Start(p, InProgress);
    assert Queue(d) == Queue(p);
    if c.channel.None? {
      assert ResetChannel !in Queue(p) && ResetChannel !in p.batch;
      if StartInLoop in Queue(p) {
        NoResetStartComes(Queue(p));
      } else {
        assert Timers(d) > 0;
      }
    }
    hide Behind, StartComes, Count;
  }

  lemma {:induction false} TwoDoom(c: ConnectorState) returns (acts: seq<Action>)
    requires Doomed(c) || TwoOnTheWay(c)
    ensures Legal(c, acts) && Prompt(acts) && !Run(c, acts).ok
    decreases Far(c)
  {
    if Doomed(c) {
      acts := Dooms(c);
    } else {
      TwoStep(c);
      hide Doomed, TwoOnTheWay, Enabled, Next, Far;
      var d := Next(c, Forced(c));
      var rest;
      if Doomed(d) {
        rest := Dooms(d);
      } else {
        rest := TwoDoom(d);
      }
      acts := [Forced(c)] + rest;
      Ahead(c, Forced(c), d, rest);
    }
  }

  /** restart() on a connector that is not quiet, with a retry timer set, a start or stop queued, or channel_ not yet
      reset: some course of the loop comes to a failing assert. */
  lemma UnquietRestartFails(c: ConnectorState) returns (acts: seq<Action>)
    requires Inv(c) && !Quiet(c)
    ensures var d := Next(c, CallRestart(InProgress)); Legal(d, acts) && Prompt(acts) && !Run(d, acts).ok
  {
    var d := Next(c, CallRestart(InProgress));
    ConnectsIntoDoom(c, c.(state := Disconnected, retryDelayMs := INIT_RETRY_DELAY_MS, delays := [], connect := true));
    hide Inv, Next, Doomed;
    acts := Dooms(d);
  }

  lemma ConnectsIntoDoom(c: ConnectorState, d: ConnectorState)
    requires Inv(c) && !Quiet(c) && d.connect && Queue(d) == Queue(c) && d.batch == c.batch && d.pending == c.pending
    requires d.channel == c.channel && d.phase == c.phase && Timers(d) == Timers(c)
    ensures Doomed(Start(d, InProgress))
  {
    var r := Start(d, InProgress);
    assert Queue(r) == Queue(c);
    if c.channel.None? {
      assert ResetChannel !in Queue(c) && ResetChannel !in c.batch;
      if StartInLoop in Queue(c) {
        NoResetStartComes(Queue(c));
      }
    }
    hide Conserved, DelaysRight, Behind, StartComes;
  }

  /** start() that is not calm, from the loop or from elsewhere, likewise. */
  lemma UnreadyStartFails(c: ConnectorState, inLoop: bool) returns (acts: seq<Action>)
    requires Inv(c) && !(if inLoop then Quiet(c) && c.state == Disconnected else Ready(c))
    ensures var d := Next(c, CallStart(inLoop, InProgress)); Legal(d, acts) && Prompt(acts) && !Run(d, acts).ok
  {
    var d := Next(c, CallStart(inLoop, InProgress));
    var w := c.(connect := true);
    assert Queue(w) == Queue(c);
    if inLoop {
      if c.state == Disconnected {
        ConnectsIntoDoom(c, w);
      } else {
        hide Inv;
      }
    } else {
      QueuedIntoDoom(c);
    }
    hide Inv, Next, Doomed, TwoOnTheWay;
    acts := TwoDoom(d);
  }

  lemma QueuedIntoDoom(c: ConnectorState)
    requires Inv(c) && !Ready(c)
    ensures var d := Queued(c.(connect := true), StartInLoop); Doomed(d) || TwoOnTheWay(d)
  {
    var w := c.(connect := true);
    assert Queue(w) == Queue(c);
    QueuePush(w, StartInLoop);
    if c.state == Connecting {
      assert ResetChannel !in Queue(c);
      NoResetStartComes(Queue(c) + [StartInLoop]);
    }
    hide Conserved, DelaysRight, Behind, StartComes;
  }

  /** After restart(), no assert can fail whatever connect(2) says and the loop does, if and only if the connector
      was quiet. */
  lemma RestartsSafelyIff(c: ConnectorState)
    requires Inv(c)
    ensures (forall result :: Safe(Next(c, CallRestart(result)))) <==> Quiet(c)
  {
    hide Inv, Safe, Quiet, Next;
    RestartsRightIff(c);
    if Quiet(c) {
      forall result
        ensures Safe(Next(c, CallRestart(result)))
      {
        InvIsSafe(Next(c, CallRestart(result)));
      }
    } else {
      var acts := UnquietRestartFails(c);
      NotSafe(Next(c, CallRestart(InProgress)), acts);
    }
  }

  lemma NotSafe(c: ConnectorState, acts: seq<Action>)
    requires Legal(c, acts) && Prompt(acts) && !Run(c, acts).ok
    ensures !Safe(c)
  {
    hide Run, Prompt;
  }

  /** After start() in the loop, if and only if it was quiet and disconnected; after start() from elsewhere, if and
      only if it was ready. */
  lemma StartsSafelyIff(c: ConnectorState, inLoop: bool)
    requires Inv(c)
    ensures (forall result :: Safe(Next(c, CallStart(inLoop, result)))) <==>
            if inLoop then Quiet(c) && c.state == Disconnected else Ready(c)
  {
    hide Inv, Safe, Quiet, Ready, Next;
    StartsRightIff(c, inLoop);
    if if inLoop then Quiet(c) && c.state == Disconnected else Ready(c) {
      forall result
        ensures Safe(Next(c, CallStart(inLoop, result)))
      {
        InvIsSafe(Next(c, CallStart(inLoop, result)));
      }
    } else {
      var acts := UnreadyStartFails(c, inLoop);
      NotSafe(Next(c, CallStart(inLoop, InProgress)), acts);
    }
  }

  // ---- What a calm run leaves out ----

  /** A timer set in an iteration whose later handlers take longer than its delay fires before resetChannel. */
  lemma SlowHandlerFails()
    ensures var acts := [CallStart(true, InProgress), Poll(true), Dispatch(true, None), TimerFires(true, InProgress)];
      Legal(INITIAL, acts) && !Run(INITIAL, acts).ok
  {
    var c1 := Next(INITIAL, CallStart(true, InProgress));
    var c2 := Next(c1, Poll(true));
    var c3 := Next(c2, Dispatch(true, None));
    var c4 := Next(c3, TimerFires(true, InProgress));
    assert c3.channel.Some? && c3.connect && !c4.ok;
    Ahead(c3, TimerFires(true, InProgress), c4, []);
    Ahead(c2, Dispatch(true, None), c3, [TimerFires(true, InProgress)]);
    Ahead(c1, Poll(true), c2, [Dispatch(true, None), TimerFires(true, InProgress)]);
    Ahead(INITIAL, CallStart(true, InProgress), c1, [Poll(true), Dispatch(true, None), TimerFires(true, InProgress)]);
  }

  /** restart() does not take back an outstanding retry timer, which then starts in the middle of an attempt. */
  lemma RestartBeforeRetryFails()
    ensures var acts := [CallStart(true, Transient), CallRestart(InProgress), Poll(false),
                         TimerFires(false, InProgress)];
      Legal(INITIAL, acts) && !Run(INITIAL, acts).ok
  {
    var c1 := Next(INITIAL, CallStart(true, Transient));
    var c2 := Next(c1, CallRestart(InProgress));
    var c3 := Next(c2, Poll(false));
    var c4 := Next(c3, TimerFires(false, InProgress));
    assert !c4.ok;
    Ahead(c3, TimerFires(false, InProgress), c4, []);
    Ahead(c2, Poll(false), c3, [TimerFires(false, InProgress)]);
    Ahead(c1, CallRestart(InProgress), c2, [Poll(false), TimerFires(false, InProgress)]);
    Ahead(INITIAL, CallStart(true, Transient), c1,
          [CallRestart(InProgress), Poll(false), TimerFires(false, InProgress)]);
  }

  /** A stop still queued when the connector is started again ends the new attempt, and retries it. */
  lemma StopOvertakenByStart()
    ensures var acts := [CallStop, CallStart(true, InProgress), Poll(false), EndHandling, RunFunctor(InProgress)];
      && Legal(INITIAL, acts)
      && var c := Run(INITIAL, acts);
      c.connect && c.state == Disconnected && c.youngTimers == 1 && c.pending == [ResetChannel] && c.batch == []
  {
    hide Min;
    var c1 := Next(INITIAL, CallStop);
    var c2 := Next(c1, CallStart(true, InProgress));
    var c3 := Next(c2, Poll(false));
    var c4 := Next(c3, EndHandling);
    assert c4.batch == [StopInLoop];
    var c5 := Next(c4, RunFunctor(InProgress));
    assert c5.pending == [ResetChannel] && c5.batch == [];
    assert c5.connect && c5.state == Disconnected && c5.youngTimers == 1;
    hide Next, Enabled;
    Ahead(c4, RunFunctor(InProgress), c5, []);
    Ahead(c3, EndHandling, c4, [RunFunctor(InProgress)]);
    Ahead(c2, Poll(false), c3, [EndHandling, RunFunctor(InProgress)]);
    Ahead(c1, CallStart(true, InProgress), c2, [Poll(false), EndHandling, RunFunctor(InProgress)]);
    Ahead(INITIAL, CallStop, c1, [CallStart(true, InProgress), Poll(false), EndHandling, RunFunctor(InProgress)]);
  }
}
