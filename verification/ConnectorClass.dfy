/** The connector of Connectors as the object it is, with the loop it belongs to. */
module ConnectorClass {
  import opened Connectors

  class Connector {
    var connect: bool
    var state: State
    var channel: Option<Sock>
    var retryDelayMs: nat

    /** The loop: its phase, its functors, its retry timers, and what its poller knows of the channel. */
    var registered: bool
    var reported: bool
    var phase: Phase
    var batch: seq<Functor>
    var pending: seq<Functor>
    var youngTimers: nat
    var oldTimers: nat

    /** The kernel's next socket; the rest is history. */
    var nextSock: Sock
    ghost var closed: multiset<Sock>
    ghost var handed: multiset<Sock>
    ghost var delays: seq<nat>
    var ok: bool

    ghost function Abs(): ConnectorState
      reads this
    {
      ConnectorState(connect, state, channel, retryDelayMs, registered, reported, phase, batch, pending,
                     youngTimers, oldTimers, nextSock, closed, handed, delays, ok)
    }

    constructor ()
      ensures Abs() == INITIAL
    {
      connect, state, channel, retryDelayMs := false, Disconnected, None, INIT_RETRY_DELAY_MS;
      registered, reported, phase, batch, pending := false, false, Functors, [], [];
      youngTimers, oldTimers := 0, 0;
      nextSock, closed, handed, delays, ok := 0, multiset{}, multiset{}, [], true;
    }

    method QueueInLoop(f: Functor)
      modifies `pending
      ensures Abs() == Queued(old(Abs()), f)
    {
      pending := pending + [f];
    }

    method Close(sockfd: Sock)
      modifies `closed
      ensures closed == old(closed) + multiset{sockfd}
    {
      closed := closed + multiset{sockfd};
    }

    method Retry(sockfd: Sock)
      modifies this
      ensures Abs() == Connectors.Retry(old(Abs()), sockfd)
    {
      Close(sockfd);
      state := Disconnected;
      if connect {
        youngTimers := youngTimers + 1;
        delays := delays + [retryDelayMs];
        retryDelayMs := if retryDelayMs * 2 < MAX_RETRY_DELAY_MS then retryDelayMs * 2 else MAX_RETRY_DELAY_MS;
      }
    }

    method BeginConnecting(sockfd: Sock)
      modifies this
      ensures Abs() ==
        Check(old(Abs()), old(channel).None?).(state := Connecting, channel := Some(sockfd), registered := true)
    {
      state := Connecting;
      ok := ok && channel.None?;
      channel := Some(sockfd);
      registered := true;
    }

    method Connect(result: ConnectResult)
      modifies this
      ensures Abs() == Connectors.Connect(old(Abs()), result)
    {
      var sockfd := nextSock;
      nextSock := nextSock + 1;
      match result
      case InProgress => BeginConnecting(sockfd);
      case Transient => Retry(sockfd);
      case Fatal => Close(sockfd);
    }

    method StartInLoop(result: ConnectResult)
      modifies this
      ensures Abs() == Connectors.Start(old(Abs()), result)
    {
      ok := ok && state == Disconnected;
      if connect {
        Connect(result);
      }
    }

    method Start(inLoop: bool, result: ConnectResult)
      modifies this
      ensures Abs() == Next(old(Abs()), CallStart(inLoop, result))
    {
      hide Connectors.Start;
      connect := true;
      if inLoop {
        StartInLoop(result);
      } else {
        QueueInLoop(Functor.StartInLoop);
      }
    }

    method Restart(result: ConnectResult)
      modifies this
      ensures Abs() == Next(old(Abs()), CallRestart(result))
    {
      hide Connectors.Start;
      state := Disconnected;
      retryDelayMs := INIT_RETRY_DELAY_MS;
      delays := [];
      connect := true;
      StartInLoop(result);
    }

    method RemoveAndResetChannel() returns (sockfd: Sock)
      requires channel.Some?
      modifies `registered, `pending
      ensures Abs() == Connectors.RemoveAndResetChannel(old(Abs())) && Some(sockfd) == channel
    {
      registered := false;
      sockfd := channel.value;
      QueueInLoop(Functor.ResetChannel);
    }

    method Stop()
      modifies this
      ensures Abs() == Next(old(Abs()), CallStop)
    {
      connect := false;
      QueueInLoop(Functor.StopInLoop);
    }

    method StopInLoop()
      requires state == Connecting ==> channel.Some?
      modifies this
      ensures Abs() == Connectors.Stop(old(Abs()))
    {
      if state == Connecting {
        state := Disconnected;
        var sockfd := RemoveAndResetChannel();
        Retry(sockfd);
      }
    }

    method ResetChannel()
      modifies `channel
      ensures Abs() == old(Abs()).(channel := None)
    {
      channel := None;
    }

    /** The attempt has succeeded: the socket goes to the callback, or is closed after a stop. */
    method Succeed(sockfd: Sock)
      modifies `state, `handed, `closed
      ensures var c := old(Abs());
        Abs() == if c.connect then c.(state := Connected, handed := c.handed + multiset{sockfd})
                 else c.(state := Connected, closed := c.closed + multiset{sockfd})
    {
      state := Connected;
      if connect {
        handed := handed + multiset{sockfd};
      } else {
        Close(sockfd);
      }
    }

    method HandleWrite(result: WriteResult)
      requires state == Connecting ==> channel.Some?
      modifies this
      ensures Abs() == Connectors.HandleWrite(old(Abs()), result)
    {
      hide Connectors.Retry, Connectors.RemoveAndResetChannel;
      if state == Connecting {
        var sockfd := RemoveAndResetChannel();
        match result
        case SocketError => Retry(sockfd);
        case SelfConnect => Retry(sockfd);
        case Established => Succeed(sockfd);
      } else {
        ok := ok && state == Disconnected;
      }
    }

    method HandleError()
      requires state == Connecting ==> channel.Some?
      modifies this
      ensures Abs() == Connectors.HandleError(old(Abs()))
    {
      if state == Connecting {
        var sockfd := RemoveAndResetChannel();
        Retry(sockfd);
      }
    }

    /** One event of the channel, in handleEventWithGuard's order. */
    method HandleEvent(err: bool, out: Option<WriteResult>)
      requires Inv(Abs()) && Enabled(Abs(), Dispatch(err, out))
      modifies this
      ensures Abs() == Next(old(Abs()), Dispatch(err, out)) && Inv(Abs())
    {
      DispatchKeeps(Abs(), err, out);
      assert state == Connecting && channel.Some?;
      hide Inv, Connectors.Retry;
      reported := false;
      if err {
        HandleError();
      }
      if out.Some? {
        HandleWrite(out.value);
      }
    }

    method Pop() returns (functor: Functor)
      requires batch != []
      modifies `batch
      ensures functor == old(batch[0]) && Abs() == old(Abs()).(batch := old(batch[1..]))
    {
      functor := batch[0];
      batch := batch[1..];
    }

    method RunFunctor(result: ConnectResult)
      requires Inv(Abs()) && Enabled(Abs(), Action.RunFunctor(result))
      modifies this
      ensures Abs() == Next(old(Abs()), Action.RunFunctor(result)) && Inv(Abs())
    {
      FunctorKeeps(Abs(), result);
      assert batch != [] && (state == Connecting ==> channel.Some?);
      hide Inv, Enabled, Connectors.Start, Connectors.Stop;
      var functor := Pop();
      match functor
      case StartInLoop => StartInLoop(result);
      case StopInLoop => StopInLoop();
      case ResetChannel => ResetChannel();
    }

    /** poll returns. */
    method Poll(report: bool)
      requires Enabled(Abs(), Action.Poll(report))
      modifies `phase, `reported, `youngTimers, `oldTimers
      ensures Abs() == Next(old(Abs()), Action.Poll(report))
    {
      phase := Handling;
      reported := report;
      oldTimers := oldTimers + youngTimers;
      youngTimers := 0;
    }

    method EndHandling()
      requires Enabled(Abs(), Action.EndHandling)
      modifies `phase, `batch, `pending
      ensures Abs() == Next(old(Abs()), Action.EndHandling)
    {
      phase := Functors;
      batch := pending;
      pending := [];
    }

    method Forget(young: bool)
      requires if young then youngTimers > 0 else oldTimers > 0
      modifies `youngTimers, `oldTimers
      ensures Abs() == Fired(old(Abs()), young)
    {
      if young {
        youngTimers := youngTimers - 1;
      } else {
        oldTimers := oldTimers - 1;
      }
    }

    /** A retry timer calls startInLoop. */
    method TimerFires(young: bool, result: ConnectResult)
      requires Enabled(Abs(), Action.TimerFires(young, result))
      modifies this
      ensures Abs() == Next(old(Abs()), Action.TimerFires(young, result))
    {
      hide Connectors.Start;
      Forget(young);
      StartInLoop(result);
    }
  }
}
