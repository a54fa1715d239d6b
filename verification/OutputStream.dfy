/** net/TcpConnection.cpp: the bytes of one connection on their way to the kernel. */
module OutputStream {
  import opened Buffers
  import opened ConnStates

  /** What write(2) came back with: a prefix taken, EWOULDBLOCK, EPIPE or ECONNRESET, or another errno. */
  datatype WriteResult = Wrote(n: nat) | WouldBlock | Fault | OtherError

  /** User callbacks queued on the loop. */
  datatype Notice = WriteComplete | HighWater(size: nat)

  datatype Config = Config(writeComplete: bool, highWater: bool, mark: nat)

  /** `taken` is what the kernel accepted, `out` what waits in outputBuffer_, `writing` the channel's write
      interest, `asked` that shutdownInLoop has run, `halfClosed` that shutdown(2) was issued. `late` is history:
      bytes were put into outputBuffer_ after that. */
  datatype Stream = Stream(
    config: Config, state: ConnState, writing: bool, out: seq<Byte>, taken: seq<Byte>,
    asked: bool, halfClosed: bool, late: bool, notices: seq<Notice>)

  datatype Action =
    | Establish
    | SendInLoop(data: seq<Byte>, direct: WriteResult)
    | Writable(result: WriteResult)
    | BeginShutdown
    | ShutdownInLoop
    | ForceClose
    | Close
    | Destroy

  // ---- The kernel's side of the contract ----

  /** write(2) takes at most what it was given, and nothing but an empty write gets past a half-close: that is a
      broken pipe, or the error the socket had pending. */
  predicate WriteAllowed(s: Stream, len: nat, w: WriteResult) {
    && (w.Wrote? ==> w.n <= len)
    && (s.halfClosed ==> w.Fault? || w.OtherError? || (w.Wrote? && w.n == len == 0))
  }

  predicate Direct(s: Stream) {
    !s.writing && s.out == []
  }

  predicate Enabled(s: Stream, a: Action) {
    match a
    case Establish => s.state == Connecting
    case SendInLoop(data, direct) => Direct(s) ==> WriteAllowed(s, |data|, direct)
    case Writable(result) => s.writing ==> WriteAllowed(s, |s.out|, result)
    case Close => Open(s.state)
    case _ => true
  }

  // ---- What each member does ----

  function Noted(s: Stream, on: bool, n: Notice): Stream {
    if on then s.(notices := s.notices + [n]) else s
  }

  /** Keep `rest` behind what already waits, reporting the first crossing of the high-water mark. */
  function Buffered(s: Stream, rest: seq<Byte>): Stream {
    if rest == [] then s
    else
      var out := s.out + rest;
      Noted(s.(out := out, writing := true, late := s.late || s.halfClosed),
            s.config.highWater && |s.out| < s.config.mark <= |out|, HighWater(|out|))
  }

  /** The kernel takes `n` bytes of a message at once. */
  function Taken(s: Stream, data: seq<Byte>, n: nat): Stream
    requires n <= |data|
  {
    Noted(s.(taken := s.taken + data[..n]), s.config.writeComplete && n == |data|, WriteComplete)
  }

  function HalfClosed(s: Stream): Stream {
    if s.writing then s.(asked := true) else s.(asked := true, halfClosed := true)
  }

  /** The message is given up whole: the connection is gone, or the direct write hit a broken pipe. */
  predicate Drops(s: Stream, a: Action) {
    a.SendInLoop? && (s.state == Disconnected || (Direct(s) && a.direct.Fault?))
  }

  function Next(s: Stream, a: Action): (r: Stream)
    requires Enabled(s, a)
  {
    match a
    case Establish => s.(state := Connected)
    case SendInLoop(data, direct) =>
      if Drops(s, a) then s
      else if Direct(s) && direct.Wrote? then Buffered(Taken(s, data, direct.n), data[direct.n..])
      else Buffered(s, data)
    case Writable(result) =>
      if !s.writing || !result.Wrote? || result.n == 0 then s
      else
        var t := s.(taken := s.taken + s.out[..result.n], out := s.out[result.n..]);
        if t.out != [] then t
        else
          var drained := Noted(t.(writing := false), s.config.writeComplete, WriteComplete);
          if s.state == Disconnecting then HalfClosed(drained) else drained
    case BeginShutdown => if s.state == Connected then s.(state := Disconnecting) else s
    case ShutdownInLoop => HalfClosed(s)
    case ForceClose => if Open(s.state) then s.(state := Disconnecting) else s
    case Close => s.(state := Disconnected, writing := false)
    case Destroy => if s.state == Connected then s.(state := Disconnected, writing := false) else s
  }

  // ---- Runs ----

  predicate Legal(s: Stream, acts: seq<Action>)
    decreases |acts|
  {
    |acts| == 0 || (Enabled(s, acts[0]) && Legal(Next(s, acts[0]), acts[1..]))
  }

  function Run(s: Stream, acts: seq<Action>): (r: Stream)
    requires Legal(s, acts)
    decreases |acts|
  {
    if |acts| == 0 then s else Run(Next(s, acts[0]), acts[1..])
  }

  /** The messages of a run that were not dropped whole, in order. */
  function Kept(s: Stream, acts: seq<Action>): seq<Byte>
    requires Legal(s, acts)
    decreases |acts|
  {
    if |acts| == 0 then []
    else
      (if acts[0].SendInLoop? && !Drops(s, acts[0]) then acts[0].data else [])
      + Kept(Next(s, acts[0]), acts[1..])
  }

  /** write(2) is called: by sendInLoop on a connection that is up when nothing waits, by handleWrite when it was
      waited for. */
  predicate Writes(s: Stream, a: Action) {
    match a
    case SendInLoop(_, _) => s.state != Disconnected && !s.writing && s.out == []
    case Writable(_) => s.writing
    case _ => false
  }

  function Result(a: Action): WriteResult
    requires a.SendInLoop? || a.Writable?
  {
    if a.SendInLoop? then a.direct else a.result
  }

  /** The bytes that write(2) says it took in a step. */
  function Accepts(s: Stream, a: Action): nat {
    if Writes(s, a) && Result(a).Wrote? then Result(a).n else 0
  }

  /** And in a run. */
  function Accepted(s: Stream, acts: seq<Action>): nat
    requires Legal(s, acts)
    decreases |acts|
  {
    if |acts| == 0 then 0 else Accepts(s, acts[0]) + Accepted(Next(s, acts[0]), acts[1..])
  }

  function Fresh(config: Config): Stream {
    Stream(config, Connecting, false, [], [], false, false, false, [])
  }

  /** What holds between any two steps. */
  predicate Inv(s: Stream) {
    && (s.state != Disconnected ==> (s.writing <==> s.out != []))
    && (s.state == Disconnected ==> !s.writing)
    && (s.state != Disconnected && s.halfClosed ==> (s.out == [] <==> !s.late))
    && (s.late ==> s.halfClosed)
    && (s.state != Disconnected && s.asked && s.out == [] ==> s.halfClosed)
    && (s.state == Connected || s.state == Connecting ==> !s.asked)
    && (s.halfClosed ==> s.asked)
  }

  /** Shutdown functors run only on a connection that has left kConnected, as shutdown() arranges. */
  predicate Ordered(s: Stream, a: Action) {
    a.ShutdownInLoop? ==> s.state == Disconnecting || s.state == Disconnected
  }

  predicate LegalOrdered(s: Stream, acts: seq<Action>)
    requires Legal(s, acts)
    decreases |acts|
  {
    |acts| == 0 || (Ordered(s, acts[0]) && LegalOrdered(Next(s, acts[0]), acts[1..]))
  }

  // ---- One step ----

  lemma StepKeepsInv(s: Stream, a: Action)
    requires Inv(s) && Enabled(s, a) && Ordered(s, a)
    ensures Inv(Next(s, a))
    ensures Rank(s.state) <= Rank(Next(s, a).state)
  {
  }

  lemma NothingToKeep(s: Stream)
    ensures Buffered(s, []) == s
  {
  }

  lemma BufferedAppends(s: Stream, rest: seq<Byte>)
    ensures var t := Buffered(s, rest);
      && t.out == s.out + rest && t.taken == s.taken && t.halfClosed == s.halfClosed && s.notices <= t.notices
      && t.notices[|s.notices|..] ==
        (if s.config.highWater && |s.out| < s.config.mark <= |t.out| then [HighWater(|t.out|)] else [])
  {
  }

  lemma TakenIs(s: Stream, data: seq<Byte>, n: nat)
    requires n <= |data|
    ensures var t := Taken(s, data, n);
      && t.out == s.out && t.taken == s.taken + data[..n] && t.config == s.config && t.halfClosed == s.halfClosed
      && t.notices == s.notices + (if s.config.writeComplete && n == |data| then [WriteComplete] else [])
  {
  }

  lemma SendConserves(s: Stream, a: Action)
    requires a.SendInLoop? && Enabled(s, a) && !Drops(s, a)
    ensures var t := Next(s, a);
      t.taken + t.out == s.taken + s.out + a.data && s.taken <= t.taken
  {
    hide Buffered, Taken;
    if Direct(s) && a.direct.Wrote? {
      var n := a.direct.n;
      TakenIs(s, a.data, n);
      BufferedAppends(Taken(s, a.data, n), a.data[n..]);
      assert a.data == a.data[..n] + a.data[n..];
      assert s.out == [] && Next(s, a).out == a.data[n..] && Next(s, a).taken == s.taken + a.data[..n];
    } else {
      BufferedAppends(s, a.data);
    }
  }

  lemma WriteConserves(s: Stream, a: Action)
    requires a.Writable? && Enabled(s, a)
    ensures var t := Next(s, a);
      t.taken + t.out == s.taken + s.out && s.taken <= t.taken
  {
    if s.writing && a.result.Wrote? {
      assert s.out == s.out[..a.result.n] + s.out[a.result.n..];
      assert s.out[a.result.n..] == [] ==> s.out[..a.result.n] == s.out;
    }
  }

  /** A step moves bytes along and adds exactly the message it keeps. */
  lemma StepConserves(s: Stream, a: Action)
    requires Enabled(s, a)
    ensures var t := Next(s, a);
      t.taken + t.out == s.taken + s.out + (if a.SendInLoop? && !Drops(s, a) then a.data else [])
    ensures s.taken <= Next(s, a).taken
  {
    if a.SendInLoop? {
      if !Drops(s, a) {
        SendConserves(s, a);
      }
    } else if a.Writable? {
      WriteConserves(s, a);
    }
  }

  /** A message is given up if and only if the connection is down, or nothing waits and its write meets a broken
      pipe; else every byte of it is with the kernel or waits. */
  lemma GivenUpIff(s: Stream, data: seq<Byte>, direct: WriteResult)
    requires Inv(s) && Enabled(s, Action.SendInLoop(data, direct)) && data != []
    ensures var t := Next(s, Action.SendInLoop(data, direct));
      t.taken + t.out == s.taken + s.out <==> s.state == Disconnected || (s.out == [] && direct == Fault)
  {
    var a := Action.SendInLoop(data, direct);
    StepConserves(s, a);
    if !Drops(s, a) {
      var t := Next(s, a);
      assert |t.taken + t.out| == |s.taken + s.out| + |data|;
    }
    hide Buffered, Taken;
  }

  /** The kernel has as many bytes more as the write of the step says it took. */
  lemma StepTakes(s: Stream, a: Action)
    requires Enabled(s, a)
    ensures |Next(s, a).taken| == |s.taken| + Accepts(s, a)
  {
    if a.SendInLoop? {
      SendTakes(s, a);
    } else {
      hide Buffered, Taken;
    }
  }

  lemma SendTakes(s: Stream, a: Action)
    requires a.SendInLoop? && Enabled(s, a)
    ensures |Next(s, a).taken| == |s.taken| + Accepts(s, a)
  {
    hide Buffered, Taken;
    if !Drops(s, a) {
      if Direct(s) && a.direct.Wrote? {
        TakenIs(s, a.data, a.direct.n);
        BufferedAppends(Taken(s, a.data, a.direct.n), a.data[a.direct.n..]);
      } else {
        BufferedAppends(s, a.data);
      }
    }
  }

  /** Steps that write nothing move no bytes and queue no callbacks. */
  lemma OthersMoveNothing(s: Stream, a: Action)
    requires Enabled(s, a) && !a.SendInLoop? && !a.Writable?
    ensures var t := Next(s, a); t.taken == s.taken && t.out == s.out && t.notices == s.notices
  {
  }

  /** The connection is half-closed by shutdownInLoop when it does not wait to write, and by the write of handleWrite
      that takes the last byte of a connection on its way down; by nothing else. */
  lemma HalfClosesIff(s: Stream, a: Action)
    requires Inv(s) && Enabled(s, a) && !s.halfClosed
    ensures Next(s, a).halfClosed <==>
      || (a.ShutdownInLoop? && !s.writing)
      || (a.Writable? && s.writing && s.state == Disconnecting && a.result == Wrote(|s.out|))
  {
  }

  /** handleWrite queues write-complete exactly when it is asked for and the write has left nothing waiting. */
  lemma WriteCompleteIff(s: Stream, result: WriteResult)
    requires Inv(s) && Enabled(s, Writable(result)) && s.state != Disconnected && s.writing
    ensures var t := Next(s, Writable(result));
      && s.notices <= t.notices
      && (WriteComplete in t.notices[|s.notices|..] <==> s.config.writeComplete && t.out == [])
  {
  }

  function Crossing(s: Stream, t: Stream): seq<Notice> {
    if s.config.highWater && |s.out| < s.config.mark <= |t.out| then [HighWater(|t.out|)] else []
  }

  /** The high-water callback is queued exactly when the waiting bytes cross the mark from below; a direct
      write that leaves something waiting queues nothing else. */
  lemma HighWaterIff(s: Stream, a: Action)
    requires a.SendInLoop? && Enabled(s, a)
    ensures var t := Next(s, a);
      && s.notices <= t.notices
      && t.notices[|s.notices|..] ==
        (if s.config.writeComplete && !Drops(s, a) && Direct(s) && a.direct == Wrote(|a.data|) then [WriteComplete]
         else Crossing(s, t))
  {
    hide Buffered, Taken;
    if Drops(s, a) {
    } else if Direct(s) && a.direct.Wrote? {
      TakenIs(s, a.data, a.direct.n);
      BufferedAppends(Taken(s, a.data, a.direct.n), a.data[a.direct.n..]);
    } else {
      BufferedAppends(s, a.data);
    }
  }

  /** What goes straight out leaves nothing, and a send never half-closes. */
  lemma SendNotEarly(s: Stream, a: Action)
    requires a.SendInLoop? && Enabled(s, a)
    ensures var t := Next(s, a);
      && s.notices <= t.notices && t.halfClosed == s.halfClosed
      && (WriteComplete in t.notices[|s.notices|..] ==> t.out == [])
  {
    hide Buffered, Taken;
    HighWaterIff(s, a);
    if !Drops(s, a) {
      if Direct(s) && a.direct.Wrote? {
        TakenIs(s, a.data, a.direct.n);
        BufferedAppends(Taken(s, a.data, a.direct.n), a.data[a.direct.n..]);
      } else {
        BufferedAppends(s, a.data);
      }
    }
  }

  /** Half-close and write-complete happen only in steps that leave nothing waiting. */
  lemma StepNotEarly(s: Stream, a: Action)
    requires Inv(s) && Enabled(s, a) && s.state != Disconnected
    ensures var t := Next(s, a);
      (t.halfClosed && !s.halfClosed) || (WriteComplete in t.notices[|s.notices|..]) ==> t.out == []
    ensures s.notices <= Next(s, a).notices
  {
    hide Buffered, Taken;
    if a.SendInLoop? {
      SendNotEarly(s, a);
      hide Next;
    }
  }

  // ---- Whole runs ----

  lemma {:induction false} RunKeepsInv(s: Stream, acts: seq<Action>)
    requires Inv(s) && Legal(s, acts) && LegalOrdered(s, acts)
    ensures Inv(Run(s, acts))
    ensures Rank(s.state) <= Rank(Run(s, acts).state)
    decreases |acts|
  {
    if |acts| == 0 {
    } else {
      StepKeepsInv(s, acts[0]);
      RunKeepsInv(Next(s, acts[0]), acts[1..]);
    }
  }

  /** Bytes taken by the kernel, then the bytes waiting, are the kept messages in order: none torn, doubled or moved. */
  lemma {:induction false} RunConserves(s: Stream, acts: seq<Action>)
    requires Legal(s, acts)
    ensures Run(s, acts).taken + Run(s, acts).out == s.taken + s.out + Kept(s, acts)
    decreases |acts|
  {
    if |acts| == 0 {
    } else {
      var t := Next(s, acts[0]);
      StepConserves(s, acts[0]);
      RunConserves(t, acts[1..]);
      var kept := if acts[0].SendInLoop? && !Drops(s, acts[0]) then acts[0].data else [];
      assert s.taken + s.out + Kept(s, acts) == (s.taken + s.out + kept) + Kept(t, acts[1..]);
    }
  }

  /** The kernel has taken as many bytes as its writes said. */
  lemma {:induction false} RunTakes(s: Stream, acts: seq<Action>)
    requires Legal(s, acts)
    ensures |Run(s, acts).taken| == |s.taken| + Accepted(s, acts)
    decreases |acts|
  {
    if |acts| == 0 {
    } else {
      StepTakes(s, acts[0]);
      hide Next, Enabled;
      RunTakes(Next(s, acts[0]), acts[1..]);
    }
  }

  lemma FreshInv(config: Config)
    ensures Inv(Fresh(config))
  {
  }

  /** From a new connection on the kernel has the kept messages in order, cut after as many bytes as the results of
      write(2) add up to; the rest waits, and write interest is there exactly while something does. */
  lemma StreamConserved(config: Config, acts: seq<Action>)
    requires Legal(Fresh(config), acts) && LegalOrdered(Fresh(config), acts)
    ensures var t := Run(Fresh(config), acts); var kept := Kept(Fresh(config), acts);
      var n := Accepted(Fresh(config), acts);
      && t.taken + t.out == kept && n <= |kept| && t.taken == kept[..n] && t.out == kept[n..]
      && (t.state != Disconnected ==> (t.writing <==> t.out != []))
  {
    FreshInv(config);
    RunConserves(Fresh(config), acts);
    RunKeepsInv(Fresh(config), acts);
    RunTakes(Fresh(config), acts);
    hide Run, Legal, LegalOrdered, Kept, Accepted;
    assert Fresh(config).taken + Fresh(config).out + Kept(Fresh(config), acts) == Kept(Fresh(config), acts);
  }

  lemma {:induction false} RunSplits(s: Stream, acts: seq<Action>, a: Action)
    requires Legal(s, acts) && Enabled(Run(s, acts), a)
    ensures Legal(s, acts + [a]) && Run(s, acts + [a]) == Next(Run(s, acts), a)
    ensures LegalOrdered(s, acts) && Ordered(Run(s, acts), a) ==> LegalOrdered(s, acts + [a])
    decreases |acts|
  {
    if |acts| == 0 {
      assert acts + [a] == [a];
    } else {
      RunSplits(Next(s, acts[0]), acts[1..], a);
      assert (acts + [a])[1..] == acts[1..] + [a];
    }
  }

  /** While the connection is up, a step half-closes it or queues write-complete only once
      every kept message of the whole run is with the kernel. */
  lemma NeverEarly(config: Config, acts: seq<Action>, a: Action)
    requires var s := Fresh(config);
      Legal(s, acts) && LegalOrdered(s, acts) && Enabled(Run(s, acts), a) && Ordered(Run(s, acts), a)
    requires Run(Fresh(config), acts).state != Disconnected
    ensures var s := Run(Fresh(config), acts); var t := Next(s, a);
      (t.halfClosed && !s.halfClosed) || (WriteComplete in t.notices[|s.notices|..]) ==>
        Legal(Fresh(config), acts + [a]) && t.taken == Kept(Fresh(config), acts + [a])
  {
    FreshInv(config);
    RunKeepsInv(Fresh(config), acts);
    StepNotEarly(Run(Fresh(config), acts), a);
    RunSplits(Fresh(config), acts, a);
    StreamConserved(config, acts + [a]);
  }

  lemma {:induction false} AskedStays(s: Stream, acts: seq<Action>)
    requires Legal(s, acts)
    ensures s.asked || ShutdownInLoop in acts ==> Run(s, acts).asked
    decreases |acts|
  {
    if |acts| == 0 {
    } else {
      AskedStays(Next(s, acts[0]), acts[1..]);
      assert acts == [acts[0]] + acts[1..];
    }
  }

  /** Once shutdownInLoop has run, an open connection has been half-closed if and only if nothing is waiting, or
      something was buffered after the half-close. */
  lemma HalfCloseFollowsDrain(config: Config, acts: seq<Action>)
    requires Legal(Fresh(config), acts) && LegalOrdered(Fresh(config), acts)
    ensures var t := Run(Fresh(config), acts);
      t.state != Disconnected && (t.asked || ShutdownInLoop in acts) ==> (t.halfClosed <==> t.out == [] || t.late)
  {
    FreshInv(config);
    RunKeepsInv(Fresh(config), acts);
    AskedStays(Fresh(config), acts);
    hide Run, Legal, LegalOrdered;
  }

  /** That happens exactly when a message sent after the half-close meets an error other than a broken pipe. */
  lemma BufferedLateIff(s: Stream, a: Action)
    requires Inv(s) && Enabled(s, a) && !s.late
    ensures Next(s, a).late <==>
      s.halfClosed && s.state != Disconnected && a.SendInLoop? && a.data != [] && a.direct == OtherError
  {
  }

  // ---- The state, from the calls alone ----

  /** kConnected onwards: shutdown and forceClose start the way down, handleClose ends it, and connectDestroyed does
      both at once for a connection that nothing has touched. */
  function Fate(acts: seq<Action>): ConnState {
    if |acts| == 0 then Connected
    else if acts[0].BeginShutdown? || acts[0].ForceClose? then (if Close in acts then Disconnected else Disconnecting)
    else if acts[0].Close? || acts[0].Destroy? then Disconnected
    else Fate(acts[1..])
  }

  function StateAfter(acts: seq<Action>): ConnState {
    if |acts| == 0 then Connecting else if acts[0].Establish? then Fate(acts[1..]) else StateAfter(acts[1..])
  }

  lemma {:induction false} DisconnectedStays(s: Stream, acts: seq<Action>)
    requires s.state == Disconnected && Legal(s, acts)
    ensures Run(s, acts).state == Disconnected
    decreases |acts|
  {
    if |acts| == 0 {
    } else {
      StateMoves(s, acts[0]);
      hide Next, Enabled;
      DisconnectedStays(Next(s, acts[0]), acts[1..]);
    }
  }

  lemma StateMoves(s: Stream, a: Action)
    requires Enabled(s, a)
    ensures var t := Next(s, a).state;
      match s.state
      case Connecting => !a.Close? && t == if a.Establish? then Connected else Connecting
      case Connected =>
        !a.Establish? && t == (if a.BeginShutdown? || a.ForceClose? then Disconnecting
                               else if a.Close? || a.Destroy? then Disconnected else Connected)
      case Disconnecting => !a.Establish? && t == if a.Close? then Disconnected else Disconnecting
      case Disconnected => !a.Establish? && !a.Close? && t == Disconnected
  {
    hide Buffered, Taken, HalfClosed;
    if a.SendInLoop? || a.Writable? || a.ShutdownInLoop? {
      SameState(s, a);
    }
  }

  lemma SameState(s: Stream, a: Action)
    requires Enabled(s, a) && (a.SendInLoop? || a.Writable? || a.ShutdownInLoop?)
    ensures Next(s, a).state == s.state
  {
  }

  lemma {:induction false} DisconnectingRun(s: Stream, acts: seq<Action>)
    requires s.state == Disconnecting && Legal(s, acts)
    ensures Run(s, acts).state == if Close in acts then Disconnected else Disconnecting
    decreases |acts|
  {
    if |acts| == 0 {
    } else {
      StateMoves(s, acts[0]);
      hide Next, Enabled;
      assert acts == [acts[0]] + acts[1..];
      if acts[0].Close? {
        DisconnectedStays(Next(s, acts[0]), acts[1..]);
      } else {
        DisconnectingRun(Next(s, acts[0]), acts[1..]);
      }
    }
  }

  lemma {:induction false} ConnectedRun(s: Stream, acts: seq<Action>)
    requires s.state == Connected && Legal(s, acts)
    ensures Run(s, acts).state == Fate(acts)
    decreases |acts|
  {
    if |acts| == 0 {
    } else {
      StateMoves(s, acts[0]);
      hide Next, Enabled;
      var t := Next(s, acts[0]);
      assert acts == [acts[0]] + acts[1..];
      if t.state == Connected {
        ConnectedRun(t, acts[1..]);
      } else if t.state == Disconnecting {
        DisconnectingRun(t, acts[1..]);
      } else {
        DisconnectedStays(t, acts[1..]);
      }
    }
  }

  /** state_ is what the calls made of it. */
  lemma {:induction false} StateFollowsCalls(s: Stream, acts: seq<Action>)
    requires s.state == Connecting && Legal(s, acts)
    ensures Run(s, acts).state == StateAfter(acts)
    decreases |acts|
  {
    if |acts| == 0 {
    } else {
      StateMoves(s, acts[0]);
      hide Next, Enabled;
      var t := Next(s, acts[0]);
      if acts[0].Establish? {
        ConnectedRun(t, acts[1..]);
      } else {
        StateFollowsCalls(t, acts[1..]);
      }
    }
  }

  // ---- The class ----

  class TcpConnection {
    const config: Config
    const outputBuffer: Buffer
    var state: ConnState
    var writing: bool
    var asked: bool
    var halfClosed: bool
    ghost var late: bool
    var queued: seq<Notice>
    ghost var taken: seq<Byte>

    ghost predicate Valid()
      reads this, outputBuffer
    {
      outputBuffer.Valid()
    }

    ghost function Abs(): Stream
      reads this, outputBuffer, outputBuffer.buffer
      requires Valid()
    {
      Stream(config, state, writing, outputBuffer.Contents(), taken, asked, halfClosed, late, queued)
    }

    constructor (config: Config)
      ensures Valid() && Abs() == Fresh(config)
      ensures fresh(outputBuffer) && fresh(outputBuffer.buffer)
    {
      var buffer := new Buffer(INITIAL_SIZE);
      this.config := config;
      outputBuffer := buffer;
      state, writing, asked, halfClosed := Connecting, false, false, false;
      queued, taken, late := [], [], false;
    }

    /** The write that sendInLoop tries when nothing waits. */
    method WriteDirectly(data: seq<Byte>, direct: WriteResult) returns (nwrote: nat, faultError: bool)
      requires Valid() && Direct(Abs()) && WriteAllowed(Abs(), |data|, direct)
      modifies this`taken, this`queued
      ensures Valid() && faultError == direct.Fault? && nwrote == if direct.Wrote? then direct.n else 0
      ensures Abs() == if direct.Wrote? then Taken(old(Abs()), data, direct.n) else old(Abs())
    {
      nwrote := 0;
      faultError := false;
      if direct.Wrote? {
        nwrote := direct.n;
        taken := taken + data[..nwrote];
        if |data| - nwrote == 0 && config.writeComplete {
          queued := queued + [WriteComplete];
        }
      } else {
        if direct != WouldBlock {
          if direct == Fault {
            faultError := true;
          }
        }
      }
    }

    /** What was not written waits behind what already does. */
    method KeepRest(rest: seq<Byte>)
      requires Valid() && rest != []
      modifies this`writing, this`queued, this`late, outputBuffer, outputBuffer.buffer
      ensures Valid() && (outputBuffer.buffer == old(outputBuffer.buffer) || fresh(outputBuffer.buffer))
      ensures Abs() == Buffered(old(Abs()), rest)
    {
      hide Buffer.Contents, Buffer.Shaped;
      var oldLen := outputBuffer.ReadableBytes();
      if oldLen + |rest| >= config.mark && oldLen < config.mark && config.highWater {
        queued := queued + [HighWater(oldLen + |rest|)];
      }
      outputBuffer.Append(rest);
      late := late || halfClosed;
      if !writing {
        writing := true;
      }
    }

    method SendInLoop(data: seq<Byte>, direct: WriteResult)
      requires Valid() && Enabled(Abs(), Action.SendInLoop(data, direct))
      modifies this, outputBuffer, outputBuffer.buffer
      ensures Valid() && (outputBuffer.buffer == old(outputBuffer.buffer) || fresh(outputBuffer.buffer))
      ensures Abs() == Next(old(Abs()), Action.SendInLoop(data, direct))
    {
      hide Buffered, Taken;
      var nwrote := 0;
      var faultError := false;
      NothingToKeep(Abs());
      if state == Disconnected {
        return;
      }
      var oldLen := outputBuffer.ReadableBytes();
      if !writing && oldLen == 0 {
        nwrote, faultError := WriteDirectly(data, direct);
        NothingToKeep(Abs());
      }
      assert nwrote == |data| ==> data[nwrote..] == [];
      assert nwrote == 0 ==> data[nwrote..] == data;
      if !faultError && nwrote < |data| {
        KeepRest(data[nwrote..]);
      }
    }

    method HandleWrite(result: WriteResult)
      requires Valid() && Enabled(Abs(), Writable(result))
      modifies this, outputBuffer
      ensures Valid() && outputBuffer.buffer == old(outputBuffer.buffer)
      ensures Abs() == Next(old(Abs()), Writable(result))
    {
      if writing {
        if result.Wrote? && result.n > 0 {
          taken := taken + outputBuffer.Contents()[..result.n];
          outputBuffer.Retrieve(result.n);
          var left := outputBuffer.ReadableBytes();
          if left == 0 {
            writing := false;
            if config.writeComplete {
              queued := queued + [WriteComplete];
            }
            if state == Disconnecting {
              ShutdownInLoop();
            }
          }
        }
      }
    }

    /** shutdown() up to the hand-over to the loop. */
    method BeginShutdown() returns (handOver: bool)
      requires Valid()
      modifies this`state
      ensures Valid() && Abs() == Next(old(Abs()), Action.BeginShutdown)
      ensures handOver <==> old(state) == Connected
    {
      handOver := state == Connected;
      if handOver {
        state := Disconnecting;
      }
    }

    method ShutdownInLoop()
      requires Valid()
      modifies this`asked, this`halfClosed
      ensures Valid() && Abs() == Next(old(Abs()), Action.ShutdownInLoop)
    {
      asked := true;
      if !writing {
        halfClosed := true;
      }
    }

    /** forceClose() up to the hand-over to the loop. */
    method ForceClose() returns (handOver: bool)
      requires Valid()
      modifies this`state
      ensures Valid() && Abs() == Next(old(Abs()), Action.ForceClose)
      ensures handOver <==> Open(old(state))
    {
      handOver := state == Connected || state == Disconnecting;
      if handOver {
        state := Disconnecting;
      }
    }

    method ConnectEstablished()
      requires Valid() && state == Connecting
      modifies this`state
      ensures Valid() && Abs() == Next(old(Abs()), Establish)
    {
      state := Connected;
    }

    method HandleClose()
      requires Valid() && Open(state)
      modifies this`state, this`writing
      ensures Valid() && Abs() == Next(old(Abs()), Close)
    {
      state := Disconnected;
      writing := false;
    }

    method ConnectDestroyed()
      requires Valid()
      modifies this`state, this`writing
      ensures Valid() && Abs() == Next(old(Abs()), Destroy)
    {
      if state == Connected {
        state := Disconnected;
        writing := false;
      }
    }
  }
}
