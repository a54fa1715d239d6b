/** What the calls and events of a connection do to it, and what becomes of them in the end. */
module LifecycleSteps {
  import opened ChannelIndexes
  import opened ConnStates
  import opened Lifecycle

  function Last(q: seq<Task>): Task
    requires q != []
  {
    q[|q| - 1]
  }

  // ---- Who takes a connection down ----

  /** `c` is disconnected and told DOWN once more, and the functor that removes it from the map, or with it removed the
      one that destroys it, is on its way. */
  predicate GoesDown(s: System, t: System, c: ConnId)
    requires Assigned(s, c)
  {
    && Assigned(t, c)
    && t.conns[c].state == Disconnected && t.conns[c].downs == s.conns[c].downs + 1
    && t.queues[0] != []
    && if s.conns[c].loop == 0 then c !in t.connections && Last(t.queues[0]) == Destroy(c)
       else Last(t.queues[0]) == Remove(c)
  }

  lemma CloseGoesDown(s: System, c: ConnId)
    requires Assigned(s, c)
    ensures GoesDown(s, HandleClose(s, c), c)
  {
  }

  lemma SameIsNotDown(s: System, t: System, c: ConnId)
    requires Assigned(s, c) && t.conns == s.conns
    ensures !GoesDown(s, t, c)
  {
  }

  /** Reported channels meet at most one of the conditions that close. */
  lemma EventIs(s: System, c: ConnId, ev: Revents)
    requires Assigned(s, c) && !ev.rdhup && (ev.hup && !ev.rdin ==> !ev.pri)
    ensures HandleEvent(s, c, ev) == if Closes(ev) then HandleClose(s, c) else s
  {
    hide HandleClose;
  }

  /** handleEvent takes a connection down if and only if its revents say hang-up without input, or its read meets end
      of file; and otherwise changes nothing here. */
  lemma DispatchClosesIff(s: System, c: ConnId)
    requires Inv(s) && SaneEvents(s) && Enabled(s, Dispatch(c))
    ensures var t := Next(s, Dispatch(c)); var ev := s.active[c];
      && (GoesDown(s, t, c) <==> (ev.hup && !ev.rdin) || ((ev.rdin || ev.pri || ev.rdhup) && ev.eof))
      && (!GoesDown(s, t, c) ==> t == s.(active := s.active - {c}))
  {
    var s1 := s.(active := s.active - {c});
    CloseGoesDown(s1, c);
    SameIsNotDown(s, s1, c);
    EventIs(s1, c, s.active[c]);
    SameGoesDown(s, s1, HandleClose(s1, c), c);
    hide Inv, HandleClose, HandleEvent, GoesDown;
  }

  lemma SameGoesDown(s: System, s1: System, t: System, c: ConnId)
    requires Assigned(s, c) && s1.conns == s.conns && Assigned(s1, c)
    ensures GoesDown(s, t, c) <==> GoesDown(s1, t, c)
  {
  }

  /** The step takes `c` down. */
  predicate TakesDown(s: System, a: Action, c: ConnId)
    requires Enabled(s, a)
  {
    match a
    case Dispatch(d) => d == c && Closes(s.active[d])
    case RunFunctor(l) => s.queues[l][0] == ForceCloseInLoop(c) && Open(s.conns[c].state)
    case _ => false
  }

  function Downs(s: System, c: ConnId): nat {
    if c in s.conns then s.conns[c].downs else 0
  }

  function One(yes: bool): nat {
    if yes then 1 else 0
  }

  lemma CloseCounts(s: System, d: ConnId, c: ConnId)
    requires Assigned(s, d)
    ensures Downs(HandleClose(s, d), c) == Downs(s, c) + One(d == c)
  {
  }

  /** A functor that does not close tells no connection DOWN, as long as connectDestroyed finds it disconnected. */
  lemma ExecuteCounts(s: System, t: Task, c: ConnId)
    requires Assigned(s, t.conn) && (t.Destroy? ==> s.conns[t.conn].state != Connected)
    ensures Downs(Execute(s, t), c) == Downs(s, c) + One(t == ForceCloseInLoop(c) && Open(s.conns[c].state))
  {
    if t.ForceCloseInLoop? {
      CloseCounts(s, t.conn, c);
    }
    hide HandleClose;
  }

  lemma DestroyFindsDown(s: System, l: LoopId)
    requires Inv(s) && Enabled(s, RunFunctor(l)) && s.queues[l][0].Destroy?
    ensures s.conns[s.queues[l][0].conn].state == Disconnected
  {
    OkInv(s);
    KnownTokened(s, s.queues[l][0].conn);
    HeadFits(s, l);
    hide Inv, Tokened, Placed, QueuesKnown, Own, Base;
  }

  lemma FunctorCounts(s: System, l: LoopId, c: ConnId)
    requires Inv(s) && Enabled(s, RunFunctor(l))
    ensures Downs(Next(s, RunFunctor(l)), c) == Downs(s, c) + One(TakesDown(s, RunFunctor(l), c))
  {
    hide Inv, Execute;
    if s.queues[l][0].Destroy? {
      DestroyFindsDown(s, l);
    }
    ExecuteCounts(Popped(s, l), s.queues[l][0], c);
  }

  /** Of the functors only forceCloseInLoop takes a connection down, if and only if it is still open. */
  lemma FunctorClosesIff(s: System, l: LoopId)
    requires Inv(s) && Enabled(s, RunFunctor(l))
    ensures var t := s.queues[l][0];
      GoesDown(s, Next(s, RunFunctor(l)), t.conn) <==> t.ForceCloseInLoop? && Open(s.conns[t.conn].state)
  {
    var t := s.queues[l][0];
    var p := Popped(s, l);
    if t.Destroy? {
      DestroyFindsDown(s, l);
    }
    CloseGoesDown(p, t.conn);
    hide Inv, HandleClose;
    if t.ForceCloseInLoop? && Open(s.conns[t.conn].state) {
      SameGoesDown(s, p, HandleClose(p, t.conn), t.conn);
      hide GoesDown;
    } else {
      ExecuteCounts(p, t, t.conn);
      hide Execute;
    }
  }

  lemma DispatchCounts(s: System, d: ConnId, c: ConnId)
    requires SaneEvents(s) && Enabled(s, Dispatch(d))
    ensures Downs(Next(s, Dispatch(d)), c) == Downs(s, c) + One(TakesDown(s, Dispatch(d), c))
  {
    CloseCounts(s.(active := s.active - {d}), d, c);
    hide HandleClose;
  }

  lemma StepCounts(s: System, a: Action, c: ConnId)
    requires Inv(s) && SaneEvents(s) && Enabled(s, a)
    ensures Downs(Next(s, a), c) == Downs(s, c) + One(TakesDown(s, a, c))
  {
    hide Inv, SaneEvents, Execute, HandleEvent;
    match a
    case Accept(io) =>
      ExecuteCounts(Registered(s, io), Establish(s.nextConnId), c);
    case RunFunctor(l) => FunctorCounts(s, l, c);
    case Dispatch(d) => DispatchCounts(s, d, c);
    case Shutdown(d, caller) =>
      ExecuteCounts(Put(s, d, s.conns[d].(state := Disconnecting)), ShutdownInLoop(d), c);
    case CallStartRead(d, caller) => ExecuteCounts(s, StartReadInLoop(d), c);
    case CallStopRead(d, caller) => ExecuteCounts(s, StopReadInLoop(d), c);
    case _ =>
  }

  /** How many steps of a run take `c` down. */
  function TimesDown(s: System, acts: seq<Action>, c: ConnId): nat
    requires Legal(s, acts)
    decreases |acts|
  {
    if |acts| == 0 then 0 else One(TakesDown(s, acts[0], c)) + TimesDown(Next(s, acts[0]), acts[1..], c)
  }

  lemma {:induction false} RunCounts(s: System, acts: seq<Action>, c: ConnId)
    requires Inv(s) && SaneEvents(s) && Legal(s, acts) && CalmRun(s, acts)
    ensures Downs(Run(s, acts), c) == Downs(s, c) + TimesDown(s, acts, c)
    decreases |acts|
  {
    hide Inv, SaneEvents, Enabled, Calm, Next, TakesDown, Downs;
    if |acts| == 0 {
    } else {
      StepCounts(s, acts[0], c);
      StepKeepsInv(s, acts[0]);
      StepKeepsEvents(s, acts[0]);
      RunCounts(Next(s, acts[0]), acts[1..], c);
    }
  }

  /** In a calm run a connection is down if and only if an event of its channel or a forceCloseInLoop closed it while
      it was open, and that has happened once. */
  lemma DownIff(n: nat, acts: seq<Action>, c: ConnId)
    requires Legal(Started(n), acts) && CalmRun(Started(n), acts) && c in Run(Started(n), acts).conns
    ensures TimesDown(Started(n), acts, c) <= 1
    ensures Run(Started(n), acts).conns[c].state == Disconnected <==> TimesDown(Started(n), acts, c) == 1
  {
    StartedInv(n);
    RunCounts(Started(n), acts, c);
    OneToken(n, acts, c);
    assert Downs(Started(n), c) == 0;
    hide Run, Legal, CalmRun, Started, Tokened, TimesDown;
  }

  // ---- What calls do at once ----

  /** `t` is in the queue of loop `l`, behind all that was there. */
  predicate Handed(s: System, r: System, l: LoopId, t: Task) {
    l < |s.queues| && r.queues == s.queues[l := s.queues[l] + [t]]
  }

  /** `r` is `s` with another record for `c`, and perhaps another queue. */
  predicate OnlyConn(s: System, r: System, c: ConnId, k: Conn) {
    && r.conns == s.conns[c := k] && r.connections == s.connections && r.active == s.active
    && r.nextConnId == s.nextConnId
  }

  /** Accepting makes one connection, the next by number, in the map and in the loop chosen. Its set-up is handed to
      that loop, or done at once when it is the base loop. */
  lemma AcceptMakes(s: System, io: LoopId)
    requires Inv(s) && Enabled(s, Accept(io))
    ensures var r := Next(s, Accept(io)); var c := s.nextConnId;
      && r.nextConnId == c + 1 && r.connections == s.connections + {c} && r.conns.Keys == s.conns.Keys + {c}
      && r.conns[c].loop == io
      && if io == 0 then r.queues == s.queues && r.conns[c].state == Connected && r.conns[c].read && r.conns[c].ups == 1
         else Handed(s, r, io, Establish(c)) && r.conns[c].state == Connecting && r.conns[c].ups == 0
  {
    hide Inv;
  }

  /** shutdown() moves a connection in kConnected, and no other, to kDisconnecting, and only then hands over
      shutdownInLoop. */
  lemma ShutdownMoves(s: System, c: ConnId, caller: Caller)
    requires Enabled(s, Shutdown(c, caller))
    ensures var r := Next(s, Shutdown(c, caller)); var k := s.conns[c];
      if k.state == Connected then
        && OnlyConn(s, r, c, k.(state := Disconnecting))
        && if caller == FromLoop(k.loop) then r.queues == s.queues else Handed(s, r, k.loop, ShutdownInLoop(c))
      else r == s
  {
  }

  /** forceClose() does so from kDisconnecting as well, and always through the queue. */
  lemma ForceCloseMoves(s: System, c: ConnId)
    requires Enabled(s, ForceClose(c))
    ensures var r := Next(s, ForceClose(c)); var k := s.conns[c];
      if Open(k.state) then
        OnlyConn(s, r, c, k.(state := Disconnecting)) && Handed(s, r, k.loop, ForceCloseInLoop(c))
      else r == s
  {
  }

  /** An open connection reads, or not, as it was last asked in its loop, and the poller watches it exactly while some
      event is wanted. */
  predicate ReadsNow(r: System, c: ConnId, on: bool) {
    && c in r.conns && r.conns[c].read == on && r.conns[c].reading == on
    && (r.conns[c].index == Added <==> on || r.conns[c].write)
  }

  lemma ReadsSet(s: System, c: ConnId, on: bool)
    requires Assigned(s, c) && Up(s, c)
    ensures ReadsNow(SetReading(s, c, on), c, on) && SetReading(s, c, on).queues == s.queues
  {
    hide Own, Base;
  }

  /** startRead and stopRead in the loop of an open connection take effect at once, from elsewhere they are handed to
      it. */
  lemma ReadsAsAsked(s: System, c: ConnId, caller: Caller, on: bool)
    requires var a := if on then CallStartRead(c, caller) else CallStopRead(c, caller);
      Inv(s) && Enabled(s, a) && Open(s.conns[c].state)
    ensures var r := Next(s, if on then CallStartRead(c, caller) else CallStopRead(c, caller)); var k := s.conns[c];
      if caller == FromLoop(k.loop) then ReadsNow(r, c, on) && r.queues == s.queues
      else r.conns == s.conns && Handed(s, r, k.loop, if on then StartReadInLoop(c) else StopReadInLoop(c))
  {
    KnownIsUp(s, c);
    hide Inv, Tokened, Placed, QueuesKnown, Up, SetReading, ReadsNow;
    if caller == FromLoop(s.conns[c].loop) {
      ReadsSet(s, c, on);
      ReadFromLoop(s, c, on);
    } else {
      ReadFromElsewhere(s, c, caller, if on then CallStartRead(c, caller) else CallStopRead(c, caller));
    }
    hide Next;
  }

  lemma ReadFromLoop(s: System, c: ConnId, on: bool)
    requires Known(s, c)
    ensures var caller := FromLoop(s.conns[c].loop);
      Next(s, if on then CallStartRead(c, caller) else CallStopRead(c, caller)) == SetReading(s, c, on)
  {
    hide SetReading;
  }

  /** And there they take effect when their turn comes. */
  lemma HandedReadTakesEffect(s: System, l: LoopId)
    requires Inv(s) && Enabled(s, RunFunctor(l))
    requires var t := s.queues[l][0];
      (t.StartReadInLoop? || t.StopReadInLoop?) && Open(s.conns[t.conn].state)
    ensures ReadsNow(Next(s, RunFunctor(l)), s.queues[l][0].conn, s.queues[l][0].StartReadInLoop?)
  {
    var t := s.queues[l][0];
    var p := Popped(s, l);
    KnownIsUp(s, t.conn);
    HeadFits(s, l);
    LateIsDownState(p, t.conn);
    hide Inv, Tokened, Placed, QueuesKnown, Up, Down, SetReading, ReadsNow;
    ReadsSet(p, t.conn, t.StartReadInLoop?);
  }

  lemma LateIsDownState(s: System, c: ConnId)
    requires Assigned(s, c)
    ensures Down(s, c) ==> s.conns[c].state == Disconnected
  {
    hide Own, Base;
  }

  lemma WritingRecord(s: System, c: ConnId, on: bool)
    requires Assigned(s, c) && Up(s, c) && s.conns[c].write != on
    ensures var k := s.conns[c];
      Update(k.(write := on)) == k.(write := on, index := if on || k.read then Added else Deleted)
  {
    hide Own, Base;
  }

  /** A change of write interest changes nothing else, and the poller follows it. */
  lemma WritesAsAsked(s: System, c: ConnId, on: bool)
    requires Inv(s) && Enabled(s, SetWriting(c, on))
    ensures var r := Next(s, SetWriting(c, on)); var k := s.conns[c];
      OnlyConn(s, r, c, k.(write := on, index := if on || k.read then Added else Deleted)) && r.queues == s.queues
  {
    hide Inv, Tokened, Placed, QueuesKnown, Up, Update;
    KnownIsUp(s, c);
    WritingRecord(s, c, on);
  }

  // ---- A forced close gets through ----

  /** `c` has a forceCloseInLoop on its way, or is down already. */
  predicate Forced(s: System, c: ConnId) {
    Assigned(s, c) && (ForceCloseInLoop(c) in s.queues[s.conns[c].loop] || s.conns[c].state == Disconnected)
  }

  /** Queues keep what is in them, but for the head that runs. */
  predicate QueuesGrow(s: System, r: System) {
    |r.queues| == |s.queues| && forall l :: 0 <= l < |s.queues| ==> s.queues[l] <= r.queues[l]
  }

  predicate LoopsStay(s: System, r: System) {
    forall c :: c in s.conns ==> c in r.conns && r.conns[c].loop == s.conns[c].loop
  }

  lemma PushGrows(s: System, r: System, l: LoopId, t: Task)
    requires l < |s.queues| && r.queues == s.queues[l := s.queues[l] + [t]]
    ensures QueuesGrow(s, r)
  {
  }

  lemma RemoveGrows(s: System, c: ConnId)
    requires Assigned(s, c)
    ensures var r := RemoveConnectionInLoop(s, c); QueuesGrow(s, r) && LoopsStay(s, r)
  {
    PushGrows(s, RemoveConnectionInLoop(s, c), s.conns[c].loop, Destroy(c));
    hide QueuesGrow;
  }

  lemma CloseGrows(s: System, c: ConnId)
    requires Assigned(s, c)
    ensures var r := HandleClose(s, c); QueuesGrow(s, r) && LoopsStay(s, r)
  {
    var r := HandleClose(s, c);
    PushGrows(s, r, 0, if s.conns[c].loop == 0 then Destroy(c) else Remove(c));
    hide QueuesGrow;
  }

  /** Nothing else pushes a functor. */
  lemma ExecuteGrows(s: System, t: Task)
    requires Assigned(s, t.conn)
    ensures var r := Execute(s, t); QueuesGrow(s, r) && LoopsStay(s, r)
  {
    if t.ForceCloseInLoop? {
      CloseGrows(s, t.conn);
    } else if t.Remove? {
      RemoveGrows(s, t.conn);
    } else {
      assert Execute(s, t).queues == s.queues;
    }
    hide HandleClose, RemoveConnectionInLoop;
  }

  lemma EventGrows(s: System, c: ConnId, ev: Revents)
    requires Assigned(s, c)
    ensures QueuesGrow(s, HandleEvent(s, c, ev)) && LoopsStay(s, HandleEvent(s, c, ev))
  {
    var s1 := if ev.hup && !ev.rdin then HandleClose(s, c) else s;
    CloseGrows(s, c);
    CloseGrows(s1, c);
    hide HandleClose;
  }

  lemma RunInLoopGrows(s: System, caller: Caller, l: LoopId, t: Task)
    requires Assigned(s, t.conn) && l < |s.queues|
    ensures var r := RunInLoop(s, caller, l, t); QueuesGrow(s, r) && LoopsStay(s, r)
  {
    ExecuteGrows(s, t);
    hide Execute;
  }

  /** What no step takes out of a queue stays in it. */
  predicate QueuesStay(s: System, r: System, a: Action)
    requires Enabled(s, a)
  {
    if a.RunFunctor? then QueuesGrow(Popped(s, a.l), r) else QueuesGrow(s, r)
  }

  lemma StepGrows(s: System, a: Action)
    requires Inv(s) && Enabled(s, a)
    ensures QueuesStay(s, Next(s, a), a) && LoopsStay(s, Next(s, a))
  {
    hide Inv, Execute, HandleEvent, RunInLoop;
    match a
    case Accept(io) => RunInLoopGrows(Registered(s, io), FromLoop(0), io, Establish(s.nextConnId));
    case RunFunctor(l) => ExecuteGrows(Popped(s, l), s.queues[l][0]);
    case Dispatch(c) => EventGrows(s.(active := s.active - {c}), c, s.active[c]);
    case Shutdown(c, caller) =>
      RunInLoopGrows(Put(s, c, s.conns[c].(state := Disconnecting)), caller, s.conns[c].loop, ShutdownInLoop(c));
    case CallStartRead(c, caller) => RunInLoopGrows(s, caller, s.conns[c].loop, StartReadInLoop(c));
    case CallStopRead(c, caller) => RunInLoopGrows(s, caller, s.conns[c].loop, StopReadInLoop(c));
    case _ =>
  }

  /** forceCloseInLoop leaves its connection down. */
  lemma ForcedRuns(s: System, l: LoopId)
    requires Inv(s) && Enabled(s, RunFunctor(l)) && s.queues[l][0].ForceCloseInLoop?
    ensures Down(s, s.queues[l][0].conn) || GoesDown(s, Next(s, RunFunctor(l)), s.queues[l][0].conn)
  {
    var c := s.queues[l][0].conn;
    OkInv(s);
    KnownTokened(s, c);
    HeadFits(s, l);
    FunctorClosesIff(s, l);
    hide Inv, Next, Tokened, Placed, QueuesKnown, GoesDown, Own, Base;
  }

  lemma AssignedStays(s: System, r: System, a: Action, c: ConnId)
    requires Assigned(s, c) && Enabled(s, a) && QueuesStay(s, r, a) && LoopsStay(s, r)
    ensures Assigned(r, c) && r.conns[c].loop == s.conns[c].loop && |r.queues| == |s.queues|
  {
  }

  lemma StaysQueued(s: System, r: System, a: Action, l: LoopId, t: Task)
    requires Enabled(s, a) && QueuesStay(s, r, a) && l < |s.queues| == |r.queues| && t in s.queues[l]
    requires a.RunFunctor? ==> s.queues[a.l][0] != t
    ensures t in r.queues[l]
  {
    if a == RunFunctor(l) {
      assert s.queues[l] == [s.queues[l][0]] + Popped(s, l).queues[l];
    }
  }

  lemma DownStays(s: System, r: System, c: ConnId)
    requires Forward(s, r) && c in s.conns && s.conns[c].state == Disconnected
    ensures c in r.conns && r.conns[c].state == Disconnected
  {
  }

  /** A forced close stays on its way until the connection is down. */
  lemma ForcedStep(s: System, a: Action, c: ConnId)
    requires Inv(s) && Enabled(s, a) && Forced(s, c)
    ensures Forced(Next(s, a), c)
  {
    var r := Next(s, a);
    StepGrows(s, a);
    AssignedStays(s, r, a, c);
    StateMovesForward(s, a);
    hide Inv, Next, Down, Forward, QueuesStay, LoopsStay;
    if s.conns[c].state == Disconnected {
      DownStays(s, r, c);
    } else if a.RunFunctor? && s.queues[a.l][0] == ForceCloseInLoop(c) {
      ForcedRuns(s, a.l);
      LateIsDownState(s, c);
    } else {
      StaysQueued(s, r, a, s.conns[c].loop, ForceCloseInLoop(c));
    }
  }

  lemma {:induction false} ForcedRun(s: System, acts: seq<Action>, c: ConnId)
    requires Inv(s) && SaneEvents(s) && Legal(s, acts) && CalmRun(s, acts) && Forced(s, c)
    ensures Forced(Run(s, acts), c)
    decreases |acts|
  {
    hide Inv, SaneEvents, Enabled, Calm, Next, Forced;
    if |acts| == 0 {
    } else {
      ForcedStep(s, acts[0], c);
      StepKeepsInv(s, acts[0]);
      StepKeepsEvents(s, acts[0]);
      ForcedRun(Next(s, acts[0]), acts[1..], c);
    }
  }

  lemma {:induction false} OnlyHas(q: seq<Task>, t: Task)
    requires t in q
    ensures Only(q, t.conn) != []
  {
    if q[0].conn != t.conn {
      OnlyHas(q[1..], t);
    }
  }

  predicate NothingLeft(s: System, c: ConnId) {
    forall l :: 0 <= l < |s.queues| ==> Only(s.queues[l], c) == []
  }

  lemma ForcedIsGone(s: System, c: ConnId)
    requires Inv(s) && Forced(s, c) && NothingLeft(s, c)
    ensures Gone(s, c)
  {
    KnownTokened(s, c);
    NothingQueued(s, c);
    hide Inv, Tokened, Placed, QueuesKnown, Up, Gone, Only;
    if ForceCloseInLoop(c) in s.queues[s.conns[c].loop] {
      OnlyHas(s.queues[s.conns[c].loop], ForceCloseInLoop(c));
    }
  }

  lemma ForceCloseForces(s: System, c: ConnId)
    requires Enabled(s, ForceClose(c)) && Open(s.conns[c].state)
    ensures Forced(Next(s, ForceClose(c)), c)
  {
    assert ForceCloseInLoop(c) in s.queues[s.conns[c].loop] + [ForceCloseInLoop(c)];
  }

  /** forceClose() on an open connection gets through: in any calm run after it, once no functor of the connection is
      left in a queue, it has been closed, removed and destroyed. */
  lemma ForceCloseEnds(s: System, c: ConnId, t: System, acts: seq<Action>)
    requires Inv(s) && SaneEvents(s) && Enabled(s, ForceClose(c)) && Open(s.conns[c].state)
    requires t == Next(s, ForceClose(c)) && Legal(t, acts) && CalmRun(t, acts) && NothingLeft(Run(t, acts), c)
    ensures Assigned(Run(t, acts), c) && Gone(Run(t, acts), c)
  {
    ForceCloseForces(s, c);
    StepKeepsInv(s, ForceClose(c));
    StepKeepsEvents(s, ForceClose(c));
    hide Inv, SaneEvents, Run, Legal, CalmRun, Gone, NothingLeft, Next, Enabled;
    ForcedRun(t, acts, c);
    RunKeepsInv(t, acts);
    ForcedIsGone(Run(t, acts), c);
  }

  /** So does the closing of a connection by an event. */
  lemma DownEnds(s: System, c: ConnId, acts: seq<Action>)
    requires Inv(s) && SaneEvents(s) && Assigned(s, c) && s.conns[c].state == Disconnected
    requires Legal(s, acts) && CalmRun(s, acts) && NothingLeft(Run(s, acts), c)
    ensures Assigned(Run(s, acts), c) && Gone(Run(s, acts), c)
  {
    hide Inv, SaneEvents, Run, Legal, CalmRun, Gone, NothingLeft;
    ForcedRun(s, acts, c);
    RunKeepsInv(s, acts);
    ForcedIsGone(Run(s, acts), c);
  }
}
