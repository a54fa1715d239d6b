/** net/TcpServer.cpp, net/TcpConnection.cpp and net/Channel.cpp: how a connection is set up and taken down
    across the base loop and the io loops, which hand it over through their functor queues. */
module Lifecycle {
  import opened ChannelIndexes
  import opened ConnStates

  /** Connections are named by nextConnId_, loops numbered from the base loop 0. */
  type ConnId = nat
  type LoopId = nat

  /** A connection with its channel: `read` and `write` are the event mask; the rest counts what happened to it. */
  datatype Conn = Conn(
    loop: LoopId, state: ConnState, reading: bool, read: bool, write: bool, index: Index,
    ups: nat, downs: nat, removals: nat, destructions: nat)

  /** Functors bound to one connection. */
  datatype Task =
    | Establish(conn: ConnId)
    | Remove(conn: ConnId)
    | Destroy(conn: ConnId)
    | ForceCloseInLoop(conn: ConnId)
    | ShutdownInLoop(conn: ConnId)
    | StartReadInLoop(conn: ConnId)
    | StopReadInLoop(conn: ConnId)

  /** revents of one dispatch, and whether its read will meet end of file. */
  datatype Revents = Revents(hup: bool, rdin: bool, pri: bool, rdhup: bool, err: bool, out: bool, eof: bool)

  /** `connections` is the server's map; `active` are the channels in some loop's activeChannels_ still to be
      handled; `queues[l]` are the pending functors of loop `l`; `ok` falls when an assert does. */
  datatype System = System(
    nextConnId: ConnId, conns: map<ConnId, Conn>, connections: set<ConnId>, active: map<ConnId, Revents>,
    queues: seq<seq<Task>>, ok: bool)

  // ---- Channel ----

  predicate NoneEvent(k: Conn) {
    !k.read && !k.write
  }

  /** Channel::update through EPollPoller::updateChannel: an absent channel is added, whatever its mask. */
  function Update(k: Conn): Conn {
    if k.index != Added then k.(index := Added)
    else if NoneEvent(k) then k.(index := Deleted)
    else k
  }

  function DisableAll(k: Conn): Conn {
    Update(k.(read := false, write := false))
  }

  // ---- What the members do to a connection's own fields ----

  function Established(k: Conn): Conn {
    Update(k.(state := Connected, read := true, ups := k.ups + 1))
  }

  /** Disconnected, off its channel, and told DOWN. */
  function TakenDown(k: Conn): Conn {
    DisableAll(k.(state := Disconnected)).(downs := k.downs + 1)
  }

  /** connectDestroyed up to Channel::remove: a connection still up is taken down first. */
  function ReadyToRemove(k: Conn): Conn {
    if k.state == Connected then TakenDown(k) else k
  }

  /** The asserts of Channel::remove and EPollPoller::removeChannel. */
  predicate Removable(k: Conn) {
    NoneEvent(ReadyToRemove(k)) && ReadyToRemove(k).index != New
  }

  function Destroyed(k: Conn): Conn {
    ReadyToRemove(k).(index := New, destructions := k.destructions + 1)
  }

  function Unlisted(k: Conn): Conn {
    k.(removals := k.removals + 1)
  }

  function Reading(k: Conn, on: bool): Conn {
    if on != k.reading || on != k.read then Update(k.(read := on)).(reading := on) else k
  }

  // ---- Members, as changes of the system ----

  function Push(s: System, l: LoopId, t: Task): System
    requires l < |s.queues|
  {
    s.(queues := s.queues[l := s.queues[l] + [t]])
  }

  predicate Assigned(s: System, c: ConnId) {
    c in s.conns && s.conns[c].loop < |s.queues| && |s.queues| > 0
  }

  function Put(s: System, c: ConnId, k: Conn): System {
    s.(conns := s.conns[c := k])
  }

  function Check(s: System, condition: bool): System {
    s.(ok := s.ok && condition)
  }

  function ConnectEstablished(s: System, c: ConnId): (r: System)
    requires Assigned(s, c)
    ensures r.active == s.active
  {
    var k := s.conns[c];
    Put(Check(s, k.state == Connecting), c, Established(k))
  }

  /** connections_.erase, which must find the connection. */
  function Erased(s: System, c: ConnId): (r: System)
    requires Assigned(s, c)
    ensures r.active == s.active
  {
    var k := s.conns[c];
    Put(Check(s, c in s.connections).(connections := s.connections - {c}), c, Unlisted(k))
  }

  function RemoveConnectionInLoop(s: System, c: ConnId): (r: System)
    requires Assigned(s, c)
    ensures r.active == s.active
  {
    Push(Erased(s, c), s.conns[c].loop, Destroy(c))
  }

  /** Runs in the connection's loop; removeConnection goes to the base loop, at once if that is the same one. */
  function HandleClose(s: System, c: ConnId): (r: System)
    requires Assigned(s, c)
    ensures Assigned(r, c) && r.active == s.active
  {
    var k := s.conns[c];
    var t := Put(Check(s, Open(k.state)), c, TakenDown(k));
    if k.loop == 0 then RemoveConnectionInLoop(t, c) else Push(t, 0, Remove(c))
  }

  /** Channel::remove through EPollPoller::removeChannel, after the disableAll of a connection still up. */
  function ConnectDestroyed(s: System, c: ConnId): (r: System)
    requires Assigned(s, c)
    ensures r.active == s.active
  {
    var k := s.conns[c];
    Put(Check(s, Removable(k)), c, Destroyed(k))
  }

  function SetReading(s: System, c: ConnId, on: bool): (r: System)
    requires Assigned(s, c)
    ensures r.active == s.active
  {
    Put(s, c, Reading(s.conns[c], on))
  }

  function Execute(s: System, t: Task): (r: System)
    requires Assigned(s, t.conn)
    ensures r.active == s.active
  {
    match t
    case Establish(c) => ConnectEstablished(s, c)
    case Remove(c) => RemoveConnectionInLoop(s, c)
    case Destroy(c) => ConnectDestroyed(s, c)
    case ForceCloseInLoop(c) => if Open(s.conns[c].state) then HandleClose(s, c) else s
    case ShutdownInLoop(c) => s
    case StartReadInLoop(c) => SetReading(s, c, true)
    case StopReadInLoop(c) => SetReading(s, c, false)
  }

  /** runInLoop from the thread of loop `me`, or from no loop's thread. */
  datatype Caller = FromLoop(me: LoopId) | Elsewhere

  function RunInLoop(s: System, caller: Caller, l: LoopId, t: Task): (r: System)
    requires Assigned(s, t.conn) && l < |s.queues|
    ensures r.active == s.active
  {
    if caller == FromLoop(l) then Execute(s, t) else Push(s, l, t)
  }

  /** handleEventWithGuard: close on hang-up without input, then error, then read, then write callbacks.
      What a write callback does to the mask is a step of its own. */
  function HandleEvent(s: System, c: ConnId, ev: Revents): (r: System)
    requires Assigned(s, c)
    ensures r.active == s.active
  {
    var s1 := if ev.hup && !ev.rdin then HandleClose(s, c) else s;
    if (ev.rdin || ev.pri || ev.rdhup) && ev.eof then HandleClose(s1, c) else s1
  }

  // ---- Steps ----
  // A loop handles all its active channels before it runs functors; a channel is reported while registered.

  datatype Action =
    | Accept(io: LoopId)
    | RunFunctor(l: LoopId)
    | Report(c: ConnId, ev: Revents)
    | Dispatch(c: ConnId)
    | Shutdown(c: ConnId, caller: Caller)
    | ForceClose(c: ConnId)
    | CallStartRead(c: ConnId, caller: Caller)
    | CallStopRead(c: ConnId, caller: Caller)
    | SetWriting(c: ConnId, on: bool)

  /** io loops are 1..N, or the base loop when N is 0. */
  predicate IsIoLoop(s: System, l: LoopId) {
    l < |s.queues| && (l == 0 <==> |s.queues| == 1)
  }

  /** Users meet a connection in its first callback. */
  predicate Known(s: System, c: ConnId) {
    Assigned(s, c) && s.conns[c].ups > 0
  }

  /** epoll reports registered channels only: bits that were asked for, besides ERR and HUP;
      a hang-up without input comes without priority input. */
  predicate Delivered(k: Conn, ev: Revents) {
    && k.index == Added
    && (ev.rdin || ev.pri ==> k.read) && (ev.out ==> k.write) && !ev.rdhup
    && (ev.hup && !ev.rdin ==> !ev.pri)
  }

  predicate Enabled(s: System, a: Action) {
    match a
    case Accept(io) => IsIoLoop(s, io) && s.nextConnId !in s.conns
    case RunFunctor(l) =>
      && l < |s.queues| && |s.queues[l]| > 0 && Assigned(s, s.queues[l][0].conn)
      && (forall c :: c in s.active ==> c in s.conns && s.conns[c].loop != l)
    case Report(c, ev) => Assigned(s, c) && Delivered(s.conns[c], ev)
    case Dispatch(c) => Assigned(s, c) && c in s.active
    case Shutdown(c, _) => Known(s, c)
    case ForceClose(c) => Known(s, c)
    case CallStartRead(c, _) => Known(s, c)
    case CallStopRead(c, _) => Known(s, c)
    case SetWriting(c, on) => Known(s, c) && Open(s.conns[c].state) && s.conns[c].write != on
  }

  function Registered(s: System, io: LoopId): System {
    Put(s, s.nextConnId, Conn(io, Connecting, true, false, false, New, 0, 0, 0, 0)).(
      nextConnId := s.nextConnId + 1, connections := s.connections + {s.nextConnId})
  }

  function Accepted(s: System, io: LoopId): System
    requires IsIoLoop(s, io)
  {
    RunInLoop(Registered(s, io), FromLoop(0), io, Establish(s.nextConnId))
  }

  function Popped(s: System, l: LoopId): System
    requires l < |s.queues| && |s.queues[l]| > 0
  {
    s.(queues := s.queues[l := s.queues[l][1..]])
  }

  function Next(s: System, a: Action): System
    requires Enabled(s, a)
  {
    match a
    case Accept(io) => Accepted(s, io)
    case RunFunctor(l) => Execute(Popped(s, l), s.queues[l][0])
    case Report(c, ev) => s.(active := s.active[c := ev])
    case Dispatch(c) => HandleEvent(s.(active := s.active - {c}), c, s.active[c])
    case Shutdown(c, caller) =>
      if s.conns[c].state == Connected then
        RunInLoop(Put(s, c, s.conns[c].(state := Disconnecting)), caller, s.conns[c].loop, ShutdownInLoop(c))
      else s
    case ForceClose(c) =>
      if Open(s.conns[c].state) then
        Push(Put(s, c, s.conns[c].(state := Disconnecting)), s.conns[c].loop, ForceCloseInLoop(c))
      else s
    case CallStartRead(c, caller) => RunInLoop(s, caller, s.conns[c].loop, StartReadInLoop(c))
    case CallStopRead(c, caller) => RunInLoop(s, caller, s.conns[c].loop, StopReadInLoop(c))
    case SetWriting(c, on) => Put(s, c, Update(s.conns[c].(write := on)))
  }

  // ---- The functors of one connection ----

  function Only(q: seq<Task>, c: ConnId): seq<Task> {
    if |q| == 0 then []
    else (if q[0].conn == c then [q[0]] else []) + Only(q[1..], c)
  }

  lemma {:induction false} OnlyAppend(q: seq<Task>, t: Task, c: ConnId)
    ensures Only(q + [t], c) == Only(q, c) + (if t.conn == c then [t] else [])
  {
    if |q| == 0 {
      assert q + [t] == [t];
      assert [t][1..] == [];
    } else {
      OnlyStep(q, c);
      OnlyStep(q + [t], c);
      hide Only;
      OnlyAppend(q[1..], t, c);
      assert (q + [t])[1..] == q[1..] + [t];
    }
  }

  lemma OnlyStep(q: seq<Task>, c: ConnId)
    requires |q| > 0
    ensures Only(q, c) == (if q[0].conn == c then [q[0]] else []) + Only(q[1..], c)
  {
  }

  /** Functors of `c` in its own loop, and in the base loop when that is another one. */
  function Own(s: System, c: ConnId): seq<Task>
    requires Assigned(s, c)
  {
    Only(s.queues[s.conns[c].loop], c)
  }

  function Base(s: System, c: ConnId): seq<Task>
    requires Assigned(s, c)
  {
    if s.conns[c].loop == 0 then [] else Only(s.queues[0], c)
  }

  predicate NowhereElse(s: System, c: ConnId)
    requires Assigned(s, c)
  {
    forall l :: 0 < l < |s.queues| && l != s.conns[c].loop ==> Only(s.queues[l], c) == []
  }

  predicate UserTask(t: Task) {
    t.ForceCloseInLoop? || t.ShutdownInLoop? || t.StartReadInLoop? || t.StopReadInLoop?
  }

  predicate AllUser(q: seq<Task>) {
    forall t :: t in q ==> UserTask(t)
  }

  // ---- The token of a connection ----

  predicate NotYetUp(s: System, c: ConnId)
    requires Assigned(s, c)
  {
    var k := s.conns[c];
    && k.state == Connecting && k.ups == 0 && k.downs == 0 && k.removals == 0 && k.destructions == 0
    && c in s.connections && c !in s.active && k.index == New && NoneEvent(k)
    && k.reading && Own(s, c) == [Establish(c)] && Base(s, c) == []
  }

  predicate Up(s: System, c: ConnId)
    requires Assigned(s, c)
  {
    var k := s.conns[c];
    && Open(k.state) && k.ups == 1 && k.downs == 0 && k.removals == 0 && k.destructions == 0
    && c in s.connections && k.index == (if NoneEvent(k) then Deleted else Added) && k.reading == k.read
    && AllUser(Own(s, c)) && Base(s, c) == []
  }

  predicate Closed(s: System, c: ConnId)
    requires Assigned(s, c)
  {
    var k := s.conns[c];
    && k.state == Disconnected && k.ups == 1 && k.downs == 1 && k.removals == 0 && k.destructions == 0
    && c in s.connections && c !in s.active && k.index == Deleted && NoneEvent(k) && k.loop != 0
    && AllUser(Own(s, c)) && Base(s, c) == [Remove(c)]
  }

  /** The destroying functor, with calls of users before it and behind it. */
  predicate Ending(q: seq<Task>) {
    |q| > 0 && (if q[0].Destroy? then AllUser(q[1..]) else UserTask(q[0]) && Ending(q[1..]))
  }

  predicate Removed(s: System, c: ConnId)
    requires Assigned(s, c)
  {
    var k := s.conns[c];
    && k.state == Disconnected && k.ups == 1 && k.downs == 1 && k.removals == 1 && k.destructions == 0
    && c !in s.connections && c !in s.active && k.index == Deleted && NoneEvent(k)
    && Ending(Own(s, c)) && Base(s, c) == []
  }

  predicate Gone(s: System, c: ConnId)
    requires Assigned(s, c)
  {
    var k := s.conns[c];
    && k.state == Disconnected && k.ups == 1 && k.downs == 1 && k.removals == 1 && k.destructions == 1
    && c !in s.connections && c !in s.active && k.index == New && NoneEvent(k)
    && AllUser(Own(s, c)) && Base(s, c) == []
  }

  /** Closed at least, if not removed or destroyed. */
  predicate Down(s: System, c: ConnId)
    requires Assigned(s, c)
  {
    Closed(s, c) || Removed(s, c) || Gone(s, c)
  }

  predicate Tokened(s: System, c: ConnId) {
    && Assigned(s, c) && IsIoLoop(s, s.conns[c].loop) && NowhereElse(s, c)
    && (NotYetUp(s, c) || Up(s, c) || Down(s, c))
  }

  ghost predicate Inv(s: System) {
    && s.ok && |s.queues| > 0 && s.nextConnId > 0
    && (forall c :: c in s.conns <==> 1 <= c < s.nextConnId)
    && (forall c :: c in s.conns ==> Tokened(s, c))
    && (forall c :: c in s.connections ==> c in s.conns)
    && (forall c :: c in s.active ==> c in s.conns)
    && (forall l, i :: 0 <= l < |s.queues| && 0 <= i < |s.queues[l]| ==> s.queues[l][i].conn in s.conns)
  }

  // ---- Steps of one connection leave the others alone ----

  /** `t` is `s` but for connection `c` and its functors. */
  ghost predicate Touches(s: System, t: System, c: ConnId) {
    && |s.queues| == |t.queues| && s.nextConnId == t.nextConnId
    && (forall d :: d != c ==> (d in s.conns <==> d in t.conns) && (d in s.conns ==> s.conns[d] == t.conns[d]))
    && (forall d :: d != c ==> (d in s.connections <==> d in t.connections) && (d in s.active <==> d in t.active))
    && (forall l, d :: 0 <= l < |s.queues| && d != c ==> Only(t.queues[l], d) == Only(s.queues[l], d))
  }

  lemma OthersKeepTokens(s: System, t: System, c: ConnId, d: ConnId)
    requires Touches(s, t, c) && d != c && Tokened(s, d)
    ensures Tokened(t, d)
  {
    assert Only(t.queues[s.conns[d].loop], d) == Only(s.queues[s.conns[d].loop], d);
    assert Only(t.queues[0], d) == Only(s.queues[0], d);
    hide Only;
  }

  lemma PushTouches(s: System, l: LoopId, t: Task)
    requires l < |s.queues|
    ensures Touches(s, Push(s, l, t), t.conn)
    ensures Only(Push(s, l, t).queues[l], t.conn) == Only(s.queues[l], t.conn) + [t]
  {
    forall d
      ensures Only(s.queues[l] + [t], d) == Only(s.queues[l], d) + (if t.conn == d then [t] else [])
    {
      OnlyAppend(s.queues[l], t, d);
    }
    hide Only;
  }

  lemma PopTouches(s: System, l: LoopId)
    requires l < |s.queues| && |s.queues[l]| > 0
    ensures var c := s.queues[l][0].conn;
      && Touches(s, Popped(s, l), c)
      && Only(s.queues[l], c) == [s.queues[l][0]] + Only(Popped(s, l).queues[l], c)
  {
  }

  lemma TouchesTransitive(s: System, t: System, u: System, c: ConnId)
    requires Touches(s, t, c) && Touches(t, u, c)
    ensures Touches(s, u, c)
  {
    hide Only;
  }

  predicate QueuesKnown(s: System) {
    forall l, i :: 0 <= l < |s.queues| && 0 <= i < |s.queues[l]| ==> s.queues[l][i].conn in s.conns
  }

  /** A step on `c` that leaves `c` with its token keeps the whole system in order. */
  lemma OneStepSuffices(s: System, t: System, c: ConnId)
    requires Inv(s) && Touches(s, t, c) && c in s.conns && c in t.conns && Tokened(t, c) && t.ok && QueuesKnown(t)
    ensures Inv(t)
  {
    hide Tokened, Only;
    forall d | d in t.conns
      ensures Tokened(t, d)
    {
      if d != c {
        OthersKeepTokens(s, t, c, d);
      }
    }
  }

  // ---- What each member does to the token ----

  /** The part of a token that says where the functors are. */
  predicate Placed(s: System, c: ConnId) {
    Assigned(s, c) && IsIoLoop(s, s.conns[c].loop) && NowhereElse(s, c)
  }

  lemma PutKeepsQueues(s: System, c: ConnId, k: Conn)
    requires Placed(s, c) && k.loop == s.conns[c].loop
    ensures var t := Put(s, c, k);
      Placed(t, c) && Own(t, c) == Own(s, c) && Base(t, c) == Base(s, c) && Touches(s, t, c)
  {
    hide Only;
  }

  lemma PushOwn(s: System, c: ConnId, t: Task)
    requires Placed(s, c) && t.conn == c
    ensures var r := Push(s, s.conns[c].loop, t);
      Placed(r, c) && Own(r, c) == Own(s, c) + [t] && Base(r, c) == Base(s, c) && Touches(s, r, c)
    ensures QueuesKnown(s) ==> QueuesKnown(Push(s, s.conns[c].loop, t))
  {
    PushTouches(s, s.conns[c].loop, t);
    hide Only;
  }

  lemma PushBase(s: System, c: ConnId, t: Task)
    requires Placed(s, c) && t.conn == c && s.conns[c].loop != 0
    ensures var r := Push(s, 0, t);
      Placed(r, c) && Own(r, c) == Own(s, c) && Base(r, c) == Base(s, c) + [t] && Touches(s, r, c)
    ensures QueuesKnown(s) ==> QueuesKnown(Push(s, 0, t))
  {
    PushTouches(s, 0, t);
    hide Only;
  }

  lemma RemoveStep(s: System, c: ConnId)
    requires Placed(s, c) && QueuesKnown(s) && c in s.connections && c !in s.active
    requires var k := s.conns[c];
      && k.state == Disconnected && k.ups == 1 && k.downs == 1 && k.removals == 0 && k.destructions == 0
      && k.index == Deleted && NoneEvent(k)
    requires AllUser(Own(s, c)) && Base(s, c) == []
    ensures var t := RemoveConnectionInLoop(s, c);
      Tokened(t, c) && Removed(t, c) && Touches(s, t, c) && t.ok == s.ok && QueuesKnown(t)
  {
    hide Only, Own, Base, NowhereElse, IsIoLoop;
    var k := s.conns[c];
    var s1 := Check(s, c in s.connections).(connections := s.connections - {c});
    SameQueues(s, s1, c);
    var s2 := Put(s1, c, k.(removals := k.removals + 1));
    PutKeepsQueues(s1, c, k.(removals := k.removals + 1));
    PushOwn(s2, c, Destroy(c));
    TouchesTransitive(s, s1, s2, c);
    TouchesTransitive(s, s2, Push(s2, k.loop, Destroy(c)), c);
    UsersThenDestroy(Own(s, c), c);
  }

  lemma {:induction false} UsersThenDestroy(q: seq<Task>, c: ConnId)
    requires AllUser(q)
    ensures Ending(q + [Destroy(c)])
  {
    if |q| == 0 {
      assert q + [Destroy(c)] == [Destroy(c)];
    } else {
      assert q[0] in q && forall t :: t in q[1..] ==> t in q;
      UsersThenDestroy(q[1..], c);
      assert (q + [Destroy(c)])[1..] == q[1..] + [Destroy(c)];
    }
  }

  lemma {:induction false} EndingGrows(q: seq<Task>, t: Task)
    requires Ending(q) && UserTask(t)
    ensures Ending(q + [t])
  {
    assert (q + [t])[1..] == q[1..] + [t];
    if !q[0].Destroy? {
      EndingGrows(q[1..], t);
    }
  }

  lemma SameQueues(s: System, t: System, c: ConnId)
    requires Placed(s, c) && t.conns == s.conns && t.queues == s.queues && t.nextConnId == s.nextConnId
    requires forall d :: d != c ==> (d in s.connections <==> d in t.connections) && (d in s.active <==> d in t.active)
    ensures Placed(t, c) && Own(t, c) == Own(s, c) && Base(t, c) == Base(s, c) && Touches(s, t, c)
    ensures QueuesKnown(s) <==> QueuesKnown(t)
  {
    hide Only;
  }

  /** Closing takes a connection off its channel and passes the token on; its mask must not be empty,
      or disableAll would register the channel again. */
  lemma CloseStep(s: System, c: ConnId)
    requires Placed(s, c) && QueuesKnown(s) && Up(s, c) && c !in s.active && !NoneEvent(s.conns[c])
    ensures var t := HandleClose(s, c);
      Tokened(t, c) && (Closed(t, c) || Removed(t, c)) && Touches(s, t, c) && t.ok == s.ok && QueuesKnown(t)
  {
    hide Only, Own, Base, NowhereElse, IsIoLoop;
    var k := s.conns[c];
    var d := TakenDown(k);
    assert d.index == Deleted && d.loop == k.loop && d.removals == 0 && d.destructions == 0 && d.ups == 1;
    var s1 := Put(Check(s, Open(k.state)), c, d);
    SameQueues(s, Check(s, Open(k.state)), c);
    PutKeepsQueues(Check(s, Open(k.state)), c, d);
    TouchesTransitive(s, Check(s, Open(k.state)), s1, c);
    if k.loop == 0 {
      RemoveStep(s1, c);
      TouchesTransitive(s, s1, RemoveConnectionInLoop(s1, c), c);
    } else {
      PushBase(s1, c, Remove(c));
      TouchesTransitive(s, s1, Push(s1, 0, Remove(c)), c);
    }
  }

  lemma EstablishStep(s: System, c: ConnId)
    requires Placed(s, c) && QueuesKnown(s) && c in s.connections && c !in s.active
    requires var k := s.conns[c];
      && k.state == Connecting && k.ups == 0 && k.downs == 0 && k.removals == 0 && k.destructions == 0
      && k.index == New && NoneEvent(k) && k.reading
    requires Own(s, c) == [] && Base(s, c) == []
    ensures var t := ConnectEstablished(s, c);
      Tokened(t, c) && Up(t, c) && Touches(s, t, c) && t.ok == s.ok && QueuesKnown(t)
  {
    hide Only, Own, Base, NowhereElse, IsIoLoop;
    var k := s.conns[c];
    var s1 := Check(s, k.state == Connecting);
    SameQueues(s, s1, c);
    PutKeepsQueues(s1, c, Established(k));
    TouchesTransitive(s, s1, ConnectEstablished(s, c), c);
  }

  lemma DestroyStep(s: System, c: ConnId)
    requires Placed(s, c) && QueuesKnown(s) && c !in s.connections && c !in s.active
    requires var k := s.conns[c];
      && k.state == Disconnected && k.ups == 1 && k.downs == 1 && k.removals == 1 && k.destructions == 0
      && k.index == Deleted && NoneEvent(k)
    requires AllUser(Own(s, c)) && Base(s, c) == []
    ensures var t := ConnectDestroyed(s, c);
      Tokened(t, c) && Gone(t, c) && Touches(s, t, c) && t.ok == s.ok && QueuesKnown(t)
  {
    hide Only, Own, Base, NowhereElse, IsIoLoop;
    var k := s.conns[c];
    var s1 := Check(s, NoneEvent(k) && k.index != New);
    SameQueues(s, s1, c);
    PutKeepsQueues(s1, c, k.(index := New, destructions := k.destructions + 1));
    TouchesTransitive(s, s1, ConnectDestroyed(s, c), c);
  }

  /** A change of an open connection's record that keeps mask and registration together. */
  lemma RecordStep(s: System, c: ConnId, k: Conn)
    requires Placed(s, c) && QueuesKnown(s) && Up(s, c)
    requires k.loop == s.conns[c].loop && Open(k.state) && k.index == (if NoneEvent(k) then Deleted else Added)
    requires k.ups == 1 && k.downs == 0 && k.removals == 0 && k.destructions == 0 && k.reading == k.read
    ensures var t := Put(s, c, k);
      Tokened(t, c) && Up(t, c) && Placed(t, c) && Touches(s, t, c) && t.ok == s.ok && QueuesKnown(t)
  {
    hide Only, Own, Base, NowhereElse, IsIoLoop;
    PutKeepsQueues(s, c, k);
  }

  lemma UserPushStep(s: System, c: ConnId, t: Task)
    requires Placed(s, c) && QueuesKnown(s) && Up(s, c) && UserTask(t) && t.conn == c
    ensures var r := Push(s, s.conns[c].loop, t);
      Tokened(r, c) && Up(r, c) && Touches(s, r, c) && r.ok == s.ok && QueuesKnown(r)
  {
    hide Only, Own, Base, NowhereElse, IsIoLoop;
    PushOwn(s, c, t);
  }

  // ---- Every step of a calm run ----

  predicate Closes(ev: Revents) {
    (ev.hup && !ev.rdin) || ((ev.rdin || ev.pri || ev.rdhup) && ev.eof)
  }

  /** What the program must not do: start reading on a connection already closed, or stop reading on one that was
      reading when it closed, or let one close whose event mask stopRead has left empty. Asking for it from another
      thread does no harm until the functor runs. */
  predicate Calm(s: System, a: Action)
    requires Enabled(s, a)
  {
    match a
    case RunFunctor(l) =>
      var t := s.queues[l][0];
      var k := s.conns[t.conn];
      && (t.StartReadInLoop? ==> Open(k.state))
      && (t.StopReadInLoop? ==> Open(k.state) || !k.reading)
      && (t.ForceCloseInLoop? && Open(k.state) ==> !NoneEvent(k))
    case Dispatch(c) => Closes(s.active[c]) ==> !NoneEvent(s.conns[c])
    case CallStartRead(c, caller) =>
      Open(s.conns[c].state) || caller != FromLoop(s.conns[c].loop)
    case CallStopRead(c, caller) =>
      Open(s.conns[c].state) || caller != FromLoop(s.conns[c].loop) || !s.conns[c].reading
    case _ => true
  }

  /** Reported channels carry the kernel's word on hang-ups until they are handled. */
  predicate SaneEvents(s: System) {
    forall c :: c in s.active ==> var ev := s.active[c]; !ev.rdhup && (ev.hup && !ev.rdin ==> !ev.pri)
  }

  lemma ActiveIsUp(s: System, c: ConnId)
    requires Inv(s) && c in s.active
    ensures Tokened(s, c) && Up(s, c) && Placed(s, c) && QueuesKnown(s)
  {
    hide Own, Base, NowhereElse, Only;
  }

  lemma KnownTokened(s: System, c: ConnId)
    requires Inv(s) && c in s.conns
    ensures Tokened(s, c) && Placed(s, c) && QueuesKnown(s)
  {
    hide Own, Base, NowhereElse, Only, NotYetUp, Up, Closed, Removed, Gone;
  }

  lemma DispatchStep(s: System, c: ConnId)
    requires Inv(s) && SaneEvents(s) && Enabled(s, Dispatch(c)) && Calm(s, Dispatch(c))
    ensures Inv(Next(s, Dispatch(c)))
  {
    ActiveIsUp(s, c);
    var ev := s.active[c];
    var s1 := s.(active := s.active - {c});
    SameQueues(s, s1, c);
    assert Up(s1, c) by {
      hide Own, Base;
    }
    var t := Next(s, Dispatch(c));
    hide Inv, Own, Base, NowhereElse, Only, Up, Tokened, Placed;
    if Closes(ev) {
      CloseStep(s1, c);
      assert t == HandleClose(s1, c);
      TouchesTransitive(s, s1, t, c);
    } else {
      assert t == s1;
      StillTokened(s1, c);
    }
    ConnStays(s1, c, ev);
    OkInv(s);
    OneStepSuffices(s, t, c);
  }

  lemma OkInv(s: System)
    requires Inv(s)
    ensures s.ok && |s.queues| > 0 && QueuesKnown(s)
  {
  }

  lemma StillTokened(s: System, c: ConnId)
    requires Placed(s, c) && Up(s, c)
    ensures Tokened(s, c)
  {
  }

  lemma ConnStays(s: System, c: ConnId, ev: Revents)
    requires Assigned(s, c)
    ensures c in HandleEvent(s, c, ev).conns
  {
  }

  /** Taking the first functor of a loop takes it from the front of its connection's own functors, or of those
      it has in the base loop. */
  lemma PopStep(s: System, l: LoopId)
    requires l < |s.queues| && |s.queues[l]| > 0 && Placed(s, s.queues[l][0].conn) && QueuesKnown(s)
    ensures var c := s.queues[l][0].conn; var t := Popped(s, l);
      && Placed(t, c) && Touches(s, t, c) && QueuesKnown(t)
      && (if l == s.conns[c].loop then Own(s, c) == [s.queues[l][0]] + Own(t, c) && Base(t, c) == Base(s, c)
          else l == 0 && Own(t, c) == Own(s, c) && Base(s, c) == [s.queues[l][0]] + Base(t, c))
  {
    PopTouches(s, l);
    hide Only;
  }

  lemma SetReadingStep(s: System, c: ConnId, on: bool)
    requires Placed(s, c) && QueuesKnown(s) && Up(s, c)
    ensures var t := SetReading(s, c, on);
      Tokened(t, c) && Up(t, c) && Placed(t, c) && Touches(s, t, c) && t.ok == s.ok && QueuesKnown(t)
  {
    hide Only, Own, Base, NowhereElse, IsIoLoop;
    RecordStep(s, c, Reading(s.conns[c], on));
  }

  /** A user's functor on an open connection. */
  lemma UserTaskStep(s: System, c: ConnId, t: Task)
    requires Placed(s, c) && QueuesKnown(s) && Up(s, c) && UserTask(t) && t.conn == c
    requires t.ForceCloseInLoop? ==> c !in s.active && !NoneEvent(s.conns[c])
    ensures var r := Execute(s, t);
      Tokened(r, c) && Touches(s, r, c) && r.ok == s.ok && QueuesKnown(r)
  {
    hide Up, Own, Base, NowhereElse, Only, IsIoLoop, Closed, Removed, NotYetUp, Gone, HandleClose, SetReading;
    UpIsOpen(s, c);
    match t
    case ForceCloseInLoop(_) => CloseStep(s, c);
    case ShutdownInLoop(_) =>
      StillTokened(s, c);
      SameQueues(s, s, c);
    case StartReadInLoop(_) => SetReadingStep(s, c, true);
    case StopReadInLoop(_) => SetReadingStep(s, c, false);
  }

  lemma UpIsOpen(s: System, c: ConnId)
    requires Assigned(s, c) && Up(s, c)
    ensures Open(s.conns[c].state)
  {
  }

  /** The functor at the head of a queue fits the state of its connection: the token decides which it can be. */
  predicate Fits(s: System, l: LoopId)
    requires l < |s.queues| && |s.queues[l]| > 0 && Assigned(s, s.queues[l][0].conn)
  {
    var t := s.queues[l][0];
    var c := t.conn;
    var r := Popped(s, l);
    match t {
      case Establish(_) => l == s.conns[c].loop && NotYetUp(s, c) && Own(r, c) == [] && Base(r, c) == []
      case Remove(_) => l == 0 && Closed(s, c) && AllUser(Own(r, c)) && Base(r, c) == []
      case Destroy(_) => l == s.conns[c].loop && Removed(s, c) && AllUser(Own(r, c)) && Base(r, c) == []
      case _ => l == s.conns[c].loop && (Up(r, c) || Down(r, c))
    }
  }

  lemma OwnHeadFits(s: System, l: LoopId)
    requires l < |s.queues| && |s.queues[l]| > 0 && Tokened(s, s.queues[l][0].conn)
    requires l == s.conns[s.queues[l][0].conn].loop
    requires var c := s.queues[l][0].conn; var r := Popped(s, l);
      Own(s, c) == [s.queues[l][0]] + Own(r, c) && Base(r, c) == Base(s, c)
    ensures Fits(s, l)
  {
    hide Only, NowhereElse, IsIoLoop;
    var t := s.queues[l][0];
    var c := t.conn;
    var own, rest := Own(s, c), Own(Popped(s, l), c);
    hide Own, Base;
    assert own[0] == t && own[1..] == rest;
    if Up(s, c) || Closed(s, c) || Gone(s, c) {
      assert t in own && UserTask(t);
      assert forall u :: u in rest ==> u in own;
    } else if NotYetUp(s, c) {
      assert t == Establish(c);
    }
  }

  lemma BaseHeadFits(s: System, l: LoopId)
    requires l < |s.queues| && |s.queues[l]| > 0 && Tokened(s, s.queues[l][0].conn) && l == 0
    requires var c := s.queues[l][0].conn; var r := Popped(s, l);
      Own(r, c) == Own(s, c) && Base(s, c) == [s.queues[l][0]] + Base(r, c)
    ensures Fits(s, l)
  {
    hide Only, NowhereElse, IsIoLoop, Own, Base;
    var c := s.queues[l][0].conn;
    assert |Base(s, c)| > 0 && Base(s, c)[0] == s.queues[l][0];
    assert Closed(s, c);
  }

  lemma HeadFits(s: System, l: LoopId)
    requires l < |s.queues| && |s.queues[l]| > 0 && Tokened(s, s.queues[l][0].conn) && QueuesKnown(s)
    ensures Fits(s, l)
  {
    PopStep(s, l);
    hide NowhereElse, Only, IsIoLoop, QueuesKnown, Touches, Own, Base, Fits, NotYetUp, Up, Closed, Removed, Gone;
    if l == s.conns[s.queues[l][0].conn].loop {
      OwnHeadFits(s, l);
    } else {
      BaseHeadFits(s, l);
    }
  }

  lemma RunEstablish(s: System, p: System, c: ConnId)
    requires Assigned(s, c) && NotYetUp(s, c) && Placed(p, c) && QueuesKnown(p)
    requires p.conns == s.conns && p.connections == s.connections && p.active == s.active
    requires Own(p, c) == [] && Base(p, c) == []
    ensures var r := ConnectEstablished(p, c);
      Tokened(r, c) && Touches(p, r, c) && r.ok == p.ok && QueuesKnown(r)
  {
    hide Own, Base, NowhereElse, IsIoLoop, Only, QueuesKnown, Touches, Tokened, ConnectEstablished;
    EstablishStep(p, c);
  }

  lemma RunRemove(s: System, p: System, c: ConnId)
    requires Assigned(s, c) && Closed(s, c) && Placed(p, c) && QueuesKnown(p)
    requires p.conns == s.conns && p.connections == s.connections && p.active == s.active
    requires AllUser(Own(p, c)) && Base(p, c) == []
    ensures var r := RemoveConnectionInLoop(p, c);
      Tokened(r, c) && Touches(p, r, c) && r.ok == p.ok && QueuesKnown(r)
  {
    hide Own, Base, NowhereElse, IsIoLoop, Only, QueuesKnown, Touches, Tokened, RemoveConnectionInLoop;
    RemoveStep(p, c);
  }

  lemma RunDestroy(s: System, p: System, c: ConnId)
    requires Assigned(s, c) && Removed(s, c) && Placed(p, c) && QueuesKnown(p)
    requires p.conns == s.conns && p.connections == s.connections && p.active == s.active
    requires AllUser(Own(p, c)) && Base(p, c) == []
    ensures var r := ConnectDestroyed(p, c);
      Tokened(r, c) && Touches(p, r, c) && r.ok == p.ok && QueuesKnown(r)
  {
    hide Own, Base, NowhereElse, IsIoLoop, Only, QueuesKnown, Touches, Tokened, ConnectDestroyed;
    DestroyStep(p, c);
  }

  /** After the close, a user's functor still in the queue finds nothing to do. */
  lemma RunLate(p: System, c: ConnId, t: Task)
    requires Placed(p, c) && QueuesKnown(p) && Down(p, c) && t.conn == c
    requires t.ForceCloseInLoop? || t.ShutdownInLoop? || (t.StopReadInLoop? && !p.conns[c].reading)
    ensures Execute(p, t) == p && Tokened(p, c) && Touches(p, p, c)
  {
    SameQueues(p, p, c);
    assert p.conns[c := p.conns[c]] == p.conns;
    hide Own, Base, NowhereElse, IsIoLoop, Only, QueuesKnown, Touches;
  }

  /** Running a functor keeps the token of its connection. */
  lemma FunctorStep(s: System, l: LoopId)
    requires Inv(s) && Enabled(s, RunFunctor(l)) && Calm(s, RunFunctor(l))
    ensures var c := s.queues[l][0].conn; var r := Next(s, RunFunctor(l));
      c in s.conns && c in r.conns && Tokened(r, c) && Touches(s, r, c) && r.ok && QueuesKnown(r)
  {
    var t := s.queues[l][0];
    var c := t.conn;
    var p := Popped(s, l);
    OkInv(s);
    assert c in s.conns;
    KnownTokened(s, c);
    hide Inv, NowhereElse, Only, IsIoLoop, QueuesKnown, Touches, Own, Base, Tokened;
    hide NotYetUp, Closed, Removed, Up, Down;
    hide ConnectEstablished, RemoveConnectionInLoop, ConnectDestroyed, HandleClose, SetReading;
    PopStep(s, l);
    HeadFits(s, l);
    match t {
      case Establish(_) => RunEstablish(s, p, c);
      case Remove(_) => RunRemove(s, p, c);
      case Destroy(_) => RunDestroy(s, p, c);
      case _ =>
        if Up(p, c) {
          UpIsOpen(p, c);
          UserTaskStep(p, c, t);
        } else {
          LateState(p, c);
          RunLate(p, c, t);
        }
    }
    TouchesTransitive(s, p, Execute(p, t), c);
    TokenedIsThere(Execute(p, t), c);
  }

  lemma LateState(p: System, c: ConnId)
    requires Assigned(p, c) && Down(p, c)
    ensures p.conns[c].state == Disconnected
  {
  }

  lemma TokenedIsThere(s: System, c: ConnId)
    requires Tokened(s, c)
    ensures c in s.conns
  {
  }

  lemma {:induction false} UnknownNowhere(q: seq<Task>, c: ConnId)
    requires forall i :: 0 <= i < |q| ==> q[i].conn != c
    ensures Only(q, c) == []
  {
    if |q| > 0 {
      UnknownNowhere(q[1..], c);
    }
  }

  lemma RegisteredPlaced(s: System, io: LoopId)
    requires Inv(s) && Enabled(s, Accept(io))
    ensures var c := s.nextConnId; var t := Registered(s, io);
      && Placed(t, c) && Own(t, c) == [] && Base(t, c) == [] && QueuesKnown(t) && c !in t.active
  {
    var c := s.nextConnId;
    var t := Registered(s, io);
    hide Tokened;
    forall l | 0 <= l < |s.queues|
      ensures Only(t.queues[l], c) == []
    {
      UnknownNowhere(s.queues[l], c);
    }
    hide Only;
  }

  /** A new connection is in the map and has its first functor, or with one loop is set up at once. */
  lemma AcceptStep(s: System, io: LoopId)
    requires Inv(s) && Enabled(s, Accept(io))
    ensures Inv(Next(s, Accept(io)))
  {
    hide Inv, NowhereElse, Only, QueuesKnown, Touches, Own, Base, Tokened, ConnectEstablished, Placed;
    var c := s.nextConnId;
    var s1 := Registered(s, io);
    var t := Next(s, Accept(io));
    RegisteredPlaced(s, io);
    NewOthers(s, s1);
    if io == 0 {
      EstablishStep(s1, c);
    } else {
      PushOwn(s1, c, Establish(c));
      FreshToken(Push(s1, io, Establish(c)), c);
    }
    TokenedIsThere(t, c);
    NewSuffices(s, s1, t);
  }

  lemma FreshToken(s: System, c: ConnId)
    requires Placed(s, c) && Own(s, c) == [Establish(c)] && Base(s, c) == []
    requires s.conns[c] == Conn(s.conns[c].loop, Connecting, true, false, false, New, 0, 0, 0, 0)
    requires c in s.connections && c !in s.active
    ensures Tokened(s, c)
  {
    hide Own, Base, NowhereElse, IsIoLoop, Only;
  }

  /** Registering a new connection changes nothing for the old ones. */
  lemma NewOthers(s: System, t: System)
    requires Inv(s) && s.nextConnId !in s.conns
    requires t.queues == s.queues && t.active == s.active && t.ok == s.ok && t.nextConnId == s.nextConnId + 1
    requires t.conns.Keys == s.conns.Keys + {s.nextConnId} && t.connections == s.connections + {s.nextConnId}
    requires forall d :: d in s.conns ==> t.conns[d] == s.conns[d]
    ensures forall d :: d in s.conns ==> d in t.conns && Tokened(t, d)
    ensures forall d :: d in t.conns <==> d in s.conns || d == s.nextConnId
    ensures forall d :: d in t.conns <==> 1 <= d < t.nextConnId
    ensures forall d :: d in t.connections ==> d in t.conns
    ensures forall d :: d in t.active ==> d in t.conns
    ensures t.ok && |t.queues| > 0
  {
    hide Tokened, QueuesKnown, Only;
    assert forall d :: d in t.conns <==> d in t.conns.Keys;
    assert forall d :: d in s.conns <==> d in s.conns.Keys;
    forall d | d in s.conns
      ensures Tokened(t, d)
    {
      OldKeepsToken(s, t, d);
    }
  }

  lemma OldKeepsToken(s: System, t: System, d: ConnId)
    requires Tokened(s, d) && t.queues == s.queues && d in t.conns && t.conns[d] == s.conns[d]
    requires (d in t.connections <==> d in s.connections) && (d in t.active <==> d in s.active)
    ensures Tokened(t, d)
  {
    hide Only;
  }

  lemma NewSuffices(s: System, s1: System, t: System)
    requires var c := s.nextConnId;
      && s1.ok && |s1.queues| > 0
      && (forall d :: d in s1.conns <==> 1 <= d < s1.nextConnId)
      && (forall d :: d in s1.conns && d != c ==> Tokened(s1, d))
      && (forall d :: d in s1.connections ==> d in s1.conns)
      && (forall d :: d in s1.active ==> d in s1.conns)
    requires Touches(s1, t, s.nextConnId) && Tokened(t, s.nextConnId)
    requires s.nextConnId in t.conns && s.nextConnId in s1.conns
    requires t.ok && QueuesKnown(t)
    ensures Inv(t)
  {
    hide Tokened, Only;
    forall d | d in t.conns
      ensures Tokened(t, d)
    {
      if d != s.nextConnId {
        OthersKeepTokens(s1, t, s.nextConnId, d);
      }
    }
  }

  lemma KnownIsUp(s: System, c: ConnId)
    requires Inv(s) && c in s.conns && Open(s.conns[c].state)
    ensures Tokened(s, c) && Up(s, c) && Placed(s, c) && QueuesKnown(s) && s.ok
  {
    hide Own, Base, NowhereElse, Only;
  }

  /** A step on an open connection's record, then perhaps a functor handed to its loop. */
  lemma RecordThenPush(s: System, c: ConnId, k: Conn, t: Task)
    requires Placed(s, c) && QueuesKnown(s) && Up(s, c) && UserTask(t) && t.conn == c
    requires k.loop == s.conns[c].loop && Open(k.state) && k.index == (if NoneEvent(k) then Deleted else Added)
    requires k.ups == 1 && k.downs == 0 && k.removals == 0 && k.destructions == 0 && k.reading == k.read
    ensures var r := Push(Put(s, c, k), k.loop, t);
      Tokened(r, c) && Touches(s, r, c) && r.ok == s.ok && QueuesKnown(r)
  {
    hide Up, NowhereElse, Only, IsIoLoop, QueuesKnown, Touches, Own, Base, Tokened;
    RecordStep(s, c, k);
    UserPushStep(Put(s, c, k), c, t);
    TouchesTransitive(s, Put(s, c, k), Push(Put(s, c, k), k.loop, t), c);
  }

  predicate Kept(s: System, r: System, c: ConnId) {
    c in s.conns && c in r.conns && Tokened(r, c) && r.ok && QueuesKnown(r)
  }

  lemma SetWritingStep(s: System, c: ConnId, on: bool)
    requires Inv(s) && Enabled(s, SetWriting(c, on))
    ensures var r := Next(s, SetWriting(c, on)); Kept(s, r, c) && Touches(s, r, c)
  {
    KnownIsUp(s, c);
    hide Inv, NowhereElse, Only, IsIoLoop, QueuesKnown, Touches, Own, Base, Tokened, Placed;
    SetWritingRecord(s, c, on);
    hide Up, Update;
    assert Next(s, SetWriting(c, on)) == Put(s, c, Update(s.conns[c].(write := on)));
    hide Next, Put;
    RecordStep(s, c, Update(s.conns[c].(write := on)));
    TokenedIsThere(Next(s, SetWriting(c, on)), c);
  }

  lemma SetWritingRecord(s: System, c: ConnId, on: bool)
    requires Assigned(s, c) && Up(s, c) && s.conns[c].write != on
    ensures var k := Update(s.conns[c].(write := on));
      && k.loop == s.conns[c].loop && Open(k.state) && k.index == (if NoneEvent(k) then Deleted else Added)
      && k.ups == 1 && k.downs == 0 && k.removals == 0 && k.destructions == 0 && k.reading == k.read
  {
    hide Own, Base;
  }

  /** An open connection on its way down is still in order. */
  lemma DisconnectingRecord(s: System, c: ConnId)
    requires Assigned(s, c) && Up(s, c)
    ensures var k := s.conns[c].(state := Disconnecting);
      && Open(k.state) && k.index == (if NoneEvent(k) then Deleted else Added)
      && k.ups == 1 && k.downs == 0 && k.removals == 0 && k.destructions == 0 && k.reading == k.read
  {
    hide Own, Base;
  }

  lemma ForceCloseStep(s: System, c: ConnId)
    requires Inv(s) && Enabled(s, ForceClose(c)) && Open(s.conns[c].state)
    ensures var r := Next(s, ForceClose(c)); Kept(s, r, c) && Touches(s, r, c)
  {
    KnownIsUp(s, c);
    DisconnectingRecord(s, c);
    hide Inv, NowhereElse, Only, IsIoLoop, QueuesKnown, Touches, Own, Base, Tokened, Placed, Up;
    var k := s.conns[c].(state := Disconnecting);
    assert Next(s, ForceClose(c)) == Push(Put(s, c, k), k.loop, ForceCloseInLoop(c));
    hide Next, Put, Push;
    RecordThenPush(s, c, k, ForceCloseInLoop(c));
    TokenedIsThere(Next(s, ForceClose(c)), c);
  }

  lemma ShutdownStep(s: System, c: ConnId, caller: Caller)
    requires Inv(s) && Enabled(s, Shutdown(c, caller)) && s.conns[c].state == Connected
    ensures var r := Next(s, Shutdown(c, caller)); Kept(s, r, c) && Touches(s, r, c)
  {
    KnownIsUp(s, c);
    DisconnectingRecord(s, c);
    hide Inv, NowhereElse, Only, IsIoLoop, QueuesKnown, Touches, Own, Base, Tokened, Placed, Up;
    var k := s.conns[c].(state := Disconnecting);
    ShutdownIs(s, c, caller);
    hide Next, Put, Push;
    if caller == FromLoop(k.loop) {
      RecordStep(s, c, k);
    } else {
      RecordThenPush(s, c, k, ShutdownInLoop(c));
    }
    TokenedIsThere(Next(s, Shutdown(c, caller)), c);
  }

  lemma ShutdownIs(s: System, c: ConnId, caller: Caller)
    requires Enabled(s, Shutdown(c, caller)) && s.conns[c].state == Connected
    ensures var k := s.conns[c].(state := Disconnecting);
      Next(s, Shutdown(c, caller)) ==
        if caller == FromLoop(k.loop) then Put(s, c, k) else Push(Put(s, c, k), k.loop, ShutdownInLoop(c))
  {
  }

  lemma InLoopOrQueued(s: System, c: ConnId, caller: Caller, t: Task)
    requires Placed(s, c) && QueuesKnown(s) && Up(s, c) && UserTask(t) && t.conn == c && !t.ForceCloseInLoop?
    ensures var r := RunInLoop(s, caller, s.conns[c].loop, t);
      Tokened(r, c) && Touches(s, r, c) && r.ok == s.ok && QueuesKnown(r)
  {
    hide NowhereElse, Only, IsIoLoop, QueuesKnown, Touches, Own, Base, Tokened, Execute, Up;
    UserTaskStep(s, c, t);
    UserPushStep(s, c, t);
  }

  lemma CallReadStep(s: System, c: ConnId, caller: Caller, a: Action)
    requires Inv(s) && Known(s, c) && Open(s.conns[c].state)
    requires a == CallStartRead(c, caller) || a == CallStopRead(c, caller)
    ensures var r := Next(s, a); Kept(s, r, c) && Touches(s, r, c)
  {
    KnownIsUp(s, c);
    hide Inv, NowhereElse, Only, IsIoLoop, QueuesKnown, Touches, Own, Base, Tokened, RunInLoop, Up;
    var t := if a.CallStartRead? then StartReadInLoop(c) else StopReadInLoop(c);
    assert Next(s, a) == RunInLoop(s, caller, s.conns[c].loop, t);
    hide Next, Placed, Known;
    InLoopOrQueued(s, c, caller, t);
    TokenedIsThere(Next(s, a), c);
  }

  /** A connection that is down may still get functors of its users. */
  lemma LateReadStep(s: System, c: ConnId, caller: Caller, a: Action)
    requires Inv(s) && Known(s, c) && !Open(s.conns[c].state)
    requires caller != FromLoop(s.conns[c].loop) && (a == CallStartRead(c, caller) || a == CallStopRead(c, caller))
    ensures var r := Next(s, a); Kept(s, r, c) && Touches(s, r, c)
  {
    hide Inv, NowhereElse, Only, IsIoLoop, QueuesKnown, Touches, Own, Base, Tokened, Down, Next, Push, Placed;
    OkInv(s);
    KnownTokened(s, c);
    LateIsDown(s, c);
    ReadFromElsewhere(s, c, caller, a);
    DownPush(s, c, if a.CallStartRead? then StartReadInLoop(c) else StopReadInLoop(c));
    TokenedIsThere(Next(s, a), c);
  }

  lemma ReadFromElsewhere(s: System, c: ConnId, caller: Caller, a: Action)
    requires Known(s, c) && caller != FromLoop(s.conns[c].loop)
    requires a == CallStartRead(c, caller) || a == CallStopRead(c, caller)
    ensures Next(s, a) ==
      Push(s, s.conns[c].loop, if a.CallStartRead? then StartReadInLoop(c) else StopReadInLoop(c))
  {
    hide Push;
  }

  lemma LateIsDown(s: System, c: ConnId)
    requires Tokened(s, c) && s.conns[c].ups > 0 && !Open(s.conns[c].state)
    ensures Down(s, c)
  {
    hide Own, Base, NowhereElse, Only, IsIoLoop;
  }

  lemma DownPush(s: System, c: ConnId, t: Task)
    requires Placed(s, c) && QueuesKnown(s) && Down(s, c) && UserTask(t) && t.conn == c
    ensures var r := Push(s, s.conns[c].loop, t);
      Tokened(r, c) && Touches(s, r, c) && r.ok == s.ok && QueuesKnown(r)
  {
    hide Only, Own, Base, NowhereElse, IsIoLoop;
    PushOwn(s, c, t);
    if Removed(s, c) {
      EndingGrows(Own(s, c), t);
    }
  }

  lemma LateStopIsNothing(s: System, c: ConnId)
    requires Tokened(s, c) && Known(s, c) && !Open(s.conns[c].state) && !s.conns[c].reading
    ensures SetReading(s, c, false) == s
  {
    hide Tokened, SetReading;
    LateIsOff(s, c);
    StopIsNothing(s, c);
  }

  lemma StopFromLoop(s: System, c: ConnId, caller: Caller)
    requires Known(s, c) && caller == FromLoop(s.conns[c].loop)
    ensures Next(s, CallStopRead(c, caller)) == SetReading(s, c, false)
  {
    hide SetReading;
  }

  lemma StopIsNothing(s: System, c: ConnId)
    requires Assigned(s, c) && !s.conns[c].read && !s.conns[c].reading
    ensures SetReading(s, c, false) == s
  {
    assert s.conns[c := s.conns[c]] == s.conns;
  }

  /** A connection that is down watches nothing and is not in the kernel's set. */
  lemma LateIsOff(s: System, c: ConnId)
    requires Tokened(s, c) && s.conns[c].ups > 0 && !Open(s.conns[c].state)
    ensures s.conns[c].state == Disconnected && NoneEvent(s.conns[c]) && s.conns[c].index != Added
  {
    hide Own, Base, NowhereElse, Only, IsIoLoop;
  }

  // ---- Runs ----

  lemma StepKeepsInv(s: System, a: Action)
    requires Inv(s) && SaneEvents(s) && Enabled(s, a) && Calm(s, a)
    ensures Inv(Next(s, a))
  {
    hide Inv, NowhereElse, Only, IsIoLoop, QueuesKnown, Touches, Own, Base, Tokened, SetReading, HandleClose;
    match a
    case Accept(io) => AcceptStep(s, io);
    case RunFunctor(l) =>
      FunctorStep(s, l);
      OneStepSuffices(s, Next(s, a), s.queues[l][0].conn);
    case Report(c, ev) => ReportStep(s, c, ev);
    case Dispatch(c) => DispatchStep(s, c);
    case Shutdown(c, caller) =>
      if s.conns[c].state == Connected {
        ShutdownStep(s, c, caller);
        OneStepSuffices(s, Next(s, a), c);
      }
    case ForceClose(c) =>
      if Open(s.conns[c].state) {
        ForceCloseStep(s, c);
        OneStepSuffices(s, Next(s, a), c);
      }
    case CallStartRead(c, caller) =>
      if Open(s.conns[c].state) {
        CallReadStep(s, c, caller, a);
      } else {
        LateReadStep(s, c, caller, a);
      }
      OneStepSuffices(s, Next(s, a), c);
    case CallStopRead(c, caller) =>
      if Open(s.conns[c].state) {
        CallReadStep(s, c, caller, a);
        OneStepSuffices(s, Next(s, a), c);
      } else if caller == FromLoop(s.conns[c].loop) {
        StopFromLoop(s, c, caller);
        KnownTokened(s, c);
        LateStopIsNothing(s, c);
      } else {
        LateReadStep(s, c, caller, a);
        OneStepSuffices(s, Next(s, a), c);
      }
    case SetWriting(c, on) =>
      SetWritingStep(s, c, on);
      OneStepSuffices(s, Next(s, a), c);
  }

  /** Only an open connection is registered with the poller, so only an open one is reported. */
  lemma ReportStep(s: System, c: ConnId, ev: Revents)
    requires Inv(s) && Enabled(s, Report(c, ev))
    ensures Inv(Next(s, Report(c, ev)))
  {
    KnownTokened(s, c);
    RegisteredIsUp(s, c);
    var t := Next(s, Report(c, ev));
    OkInv(s);
    SameQueues(s, t, c);
    assert Up(t, c) && Placed(t, c) by {
      hide Own, Base, NowhereElse, Only;
    }
    hide Inv, NowhereElse, Only, IsIoLoop, Touches, Own, Base, Up;
    StillTokened(t, c);
    hide Tokened;
    OneStepSuffices(s, t, c);
  }

  lemma RegisteredIsUp(s: System, c: ConnId)
    requires Tokened(s, c) && s.conns[c].index == Added
    ensures Up(s, c)
  {
    hide Own, Base, NowhereElse, Only, IsIoLoop;
  }

  lemma StepKeepsEvents(s: System, a: Action)
    requires SaneEvents(s) && Enabled(s, a)
    ensures SaneEvents(Next(s, a))
  {
    ActiveOnly(s, a);
    hide Next, Only;
  }

  /** Only Report and Dispatch change what is active. */
  lemma ActiveOnly(s: System, a: Action)
    requires Enabled(s, a)
    ensures Next(s, a).active ==
      (if a.Report? then s.active[a.c := a.ev] else if a.Dispatch? then s.active - {a.c} else s.active)
  {
    hide Execute, RunInLoop, HandleEvent;
  }

  /** The system with one base loop and `n` io loops, before anything happens. */
  function Started(n: nat): System {
    System(1, map[], {}, map[], seq(n + 1, _ => []), true)
  }

  predicate Legal(s: System, acts: seq<Action>)
    decreases |acts|
  {
    |acts| == 0 || (Enabled(s, acts[0]) && Legal(Next(s, acts[0]), acts[1..]))
  }

  predicate CalmRun(s: System, acts: seq<Action>)
    requires Legal(s, acts)
    decreases |acts|
  {
    |acts| == 0 || (Calm(s, acts[0]) && CalmRun(Next(s, acts[0]), acts[1..]))
  }

  function Run(s: System, acts: seq<Action>): System
    requires Legal(s, acts)
    decreases |acts|
  {
    if |acts| == 0 then s else Run(Next(s, acts[0]), acts[1..])
  }

  lemma {:induction false} RunKeepsInv(s: System, acts: seq<Action>)
    requires Inv(s) && SaneEvents(s) && Legal(s, acts) && CalmRun(s, acts)
    ensures Inv(Run(s, acts)) && SaneEvents(Run(s, acts))
    decreases |acts|
  {
    hide Inv, SaneEvents, Enabled, Calm, Next;
    if |acts| == 0 {
    } else {
      StepKeepsInv(s, acts[0]);
      StepKeepsEvents(s, acts[0]);
      RunKeepsInv(Next(s, acts[0]), acts[1..]);
    }
  }

  lemma StartedInv(n: nat)
    ensures Inv(Started(n)) && SaneEvents(Started(n))
  {
    hide Tokened;
  }

  /** No assert fails in any calm run: each connection is established once, closed once, found in the map when it
      is removed, and unregistered with an empty mask when it is destroyed in its own loop. */
  lemma NoAssertFails(n: nat, acts: seq<Action>)
    requires Legal(Started(n), acts) && CalmRun(Started(n), acts)
    ensures Run(Started(n), acts).ok
  {
    StartedInv(n);
    RunKeepsInv(Started(n), acts);
    hide Run, Legal, CalmRun, Started;
  }

  /** Where a connection stands is where its functors say: at every moment of a calm run it has exactly one token,
      it is in the map until removed, and it gets one DOWN for its UP. */
  lemma OneToken(n: nat, acts: seq<Action>, c: ConnId)
    requires Legal(Started(n), acts) && CalmRun(Started(n), acts)
    requires c in Run(Started(n), acts).conns
    ensures var s := Run(Started(n), acts); Tokened(s, c)
    ensures var s := Run(Started(n), acts); var k := s.conns[c];
      && (c in s.connections <==> k.removals == 0)
      && k.destructions <= k.removals <= k.downs <= k.ups <= 1
      && (k.ups == 0 <==> k.state == Connecting) && (k.downs == 1 <==> k.state == Disconnected)
      && (k.destructions == 1 ==>
            NoneEvent(k) && k.index == New && AllUser(Own(s, c)) && Base(s, c) == [] && NowhereElse(s, c))
  {
    StartedInv(n);
    RunKeepsInv(Started(n), acts);
    var s := Run(Started(n), acts);
    hide Run, Legal, CalmRun, Started;
    KnownTokened(s, c);
    hide Inv, Only, Own, Base, NowhereElse, IsIoLoop;
  }

  lemma NothingQueued(s: System, c: ConnId)
    requires Tokened(s, c) && forall l :: 0 <= l < |s.queues| ==> Only(s.queues[l], c) == []
    ensures if Open(s.conns[c].state) then Up(s, c) else Gone(s, c)
  {
    assert Own(s, c) == [] && Base(s, c) == [] by {
      hide Only, Tokened;
    }
    hide Only, Own, Base, NowhereElse, IsIoLoop;
  }

  /** No hand-off is lost: a connection with no functor left in any queue is up, or taken down all the way. */
  lemma NoneIsLost(n: nat, acts: seq<Action>, c: ConnId)
    requires Legal(Started(n), acts) && CalmRun(Started(n), acts)
    requires var s := Run(Started(n), acts);
      c in s.conns && forall l :: 0 <= l < |s.queues| ==> Only(s.queues[l], c) == []
    ensures var s := Run(Started(n), acts);
      Assigned(s, c) && if Open(s.conns[c].state) then Up(s, c) else Gone(s, c)
  {
    hide Run, Legal, CalmRun, Started, Only, Inv;
    StartedInv(n);
    RunKeepsInv(Started(n), acts);
    KnownTokened(Run(Started(n), acts), c);
    NothingQueued(Run(Started(n), acts), c);
    hide Up, Gone;
  }

  // ---- Calm is exactly what the invariant needs ----

  /** A connection that is down but in the kernel's set. */
  predicate Stray(s: System, c: ConnId) {
    Assigned(s, c) && s.conns[c].state == Disconnected && s.conns[c].index == Added
  }

  lemma StrayIsLost(s: System, c: ConnId)
    requires Stray(s, c)
    ensures !Inv(s)
  {
    if Inv(s) {
      KnownTokened(s, c);
      RegisteredIsUp(s, c);
    }
    hide Inv;
  }

  lemma LateReadStrays(s: System, c: ConnId, on: bool)
    requires Assigned(s, c) && s.conns[c].state == Disconnected && NoneEvent(s.conns[c]) && s.conns[c].index != Added
    requires on || s.conns[c].reading
    ensures Stray(SetReading(s, c, on), c)
  {
  }

  lemma UnwatchedCloseStrays(s: System, c: ConnId)
    requires Assigned(s, c) && NoneEvent(s.conns[c]) && s.conns[c].index != Added
    ensures Stray(HandleClose(s, c), c)
  {
  }

  lemma FunctorStrays(s: System, l: LoopId)
    requires Inv(s) && Enabled(s, RunFunctor(l)) && !Calm(s, RunFunctor(l))
    ensures Stray(Next(s, RunFunctor(l)), s.queues[l][0].conn)
  {
    var t := s.queues[l][0];
    var c := t.conn;
    OkInv(s);
    KnownTokened(s, c);
    HeadFits(s, l);
    var p := Popped(s, l);
    hide Inv, NowhereElse, Only, IsIoLoop, QueuesKnown, Touches, Own, Base, Tokened, HandleClose, SetReading, Placed;
    hide ConnectEstablished, RemoveConnectionInLoop, ConnectDestroyed;
    if t.ForceCloseInLoop? {
      UnwatchedIndex(p, c);
      UnwatchedCloseStrays(p, c);
    } else {
      LateReadStrays(p, c, t.StartReadInLoop?);
    }
  }

  lemma UnwatchedIndex(s: System, c: ConnId)
    requires Assigned(s, c) && (Up(s, c) || Down(s, c)) && NoneEvent(s.conns[c])
    ensures s.conns[c].index != Added
  {
    hide Own, Base;
  }

  lemma DispatchStrays(s: System, c: ConnId)
    requires Inv(s) && SaneEvents(s) && Enabled(s, Dispatch(c)) && !Calm(s, Dispatch(c))
    ensures Stray(Next(s, Dispatch(c)), c)
  {
    ActiveIsUp(s, c);
    var s1 := s.(active := s.active - {c});
    UnwatchedIndex(s, c);
    hide Inv, Up, Tokened, Placed, NowhereElse, Only, QueuesKnown, HandleClose;
    assert Next(s, Dispatch(c)) == HandleClose(s1, c);
    UnwatchedCloseStrays(s1, c);
  }

  lemma CallReadStrays(s: System, c: ConnId, caller: Caller, on: bool)
    requires var a := if on then CallStartRead(c, caller) else CallStopRead(c, caller);
      Inv(s) && Enabled(s, a) && !Calm(s, a)
    ensures var a := if on then CallStartRead(c, caller) else CallStopRead(c, caller); Stray(Next(s, a), c)
  {
    hide Inv, Tokened, Placed, QueuesKnown, SetReading, Push;
    KnownTokened(s, c);
    LateIsOff(s, c);
    LateReadStrays(s, c, on);
  }

  lemma NotCalmStrays(s: System, a: Action) returns (c: ConnId)
    requires Inv(s) && SaneEvents(s) && Enabled(s, a) && !Calm(s, a)
    ensures Stray(Next(s, a), c)
  {
    hide Inv, Next, Stray;
    match a
    case RunFunctor(l) =>
      c := s.queues[l][0].conn;
      FunctorStrays(s, l);
    case Dispatch(d) =>
      c := d;
      DispatchStrays(s, c);
    case CallStartRead(d, caller) =>
      c := d;
      CallReadStrays(s, c, caller, true);
    case CallStopRead(d, caller) =>
      c := d;
      CallReadStrays(s, c, caller, false);
  }

  /** A step leaves every connection with its token if and only if it is calm. */
  lemma StepKeepsInvIff(s: System, a: Action)
    requires Inv(s) && SaneEvents(s) && Enabled(s, a)
    ensures Inv(Next(s, a)) <==> Calm(s, a)
  {
    hide Inv, Next, Stray;
    if Calm(s, a) {
      StepKeepsInv(s, a);
    } else {
      var c := NotCalmStrays(s, a);
      StrayIsLost(Next(s, a), c);
    }
  }

  lemma Ahead(s: System, a: Action, t: System, rest: seq<Action>)
    requires Enabled(s, a) && Next(s, a) == t && Legal(t, rest)
    ensures Legal(s, [a] + rest) && Run(s, [a] + rest) == Run(t, rest)
  {
    hide Enabled, Next;
    assert ([a] + rest)[1..] == rest;
  }

  // ---- And what the asserts need ----

  const HANGUP := Revents(true, false, false, false, false, false, false)

  /** The peer hangs up on `c`, and the loop handles it. */
  function Hangup(c: ConnId): seq<Action> {
    [Report(c, HANGUP), Dispatch(c)]
  }

  /** No assert has failed, and none does when a peer hangs up. */
  ghost predicate HangupSafe(s: System) {
    s.ok && forall c :: Legal(s, Hangup(c)) ==> Run(s, Hangup(c)).ok
  }

  ghost predicate AlwaysHangupSafe(s: System, acts: seq<Action>)
    requires Legal(s, acts)
    decreases |acts|
  {
    HangupSafe(s) && (|acts| > 0 ==> AlwaysHangupSafe(Next(s, acts[0]), acts[1..]))
  }

  lemma HangupIs(s: System, c: ConnId)
    requires Enabled(s, Report(c, HANGUP))
    ensures var r := Next(s, Report(c, HANGUP));
      Enabled(r, Dispatch(c)) && Legal(s, Hangup(c)) && Run(s, Hangup(c)) == Next(r, Dispatch(c))
  {
    var r := Next(s, Report(c, HANGUP));
    assert Enabled(r, Dispatch(c));
    hide Enabled, Next;
    Ahead(r, Dispatch(c), Next(r, Dispatch(c)), []);
    Ahead(s, Report(c, HANGUP), r, [Dispatch(c)]);
    assert [Report(c, HANGUP)] + [Dispatch(c)] == Hangup(c) && [Dispatch(c)] + [] == [Dispatch(c)];
  }

  /** A stray connection is reported, and closed a second time: handleClose's assert fails. */
  lemma StrayFails(s: System, c: ConnId)
    requires Stray(s, c)
    ensures Legal(s, Hangup(c)) && !Run(s, Hangup(c)).ok
  {
    HangupIs(s, c);
    hide Legal, Run, RemoveConnectionInLoop;
    assert !HandleClose(s.(active := s.active[c := HANGUP] - {c}), c).ok by {
      CloseTwice(s.(active := s.active[c := HANGUP] - {c}), c);
    }
  }

  lemma CloseTwice(s: System, c: ConnId)
    requires Assigned(s, c) && s.conns[c].state == Disconnected
    ensures !HandleClose(s, c).ok
  {
  }

  lemma InvIsHangupSafe(s: System)
    requires Inv(s) && SaneEvents(s)
    ensures HangupSafe(s)
  {
    OkInv(s);
    forall c | Legal(s, Hangup(c))
      ensures Run(s, Hangup(c)).ok
    {
      HangupIsCalm(s, c);
    }
    hide Inv, Legal, Run;
  }

  lemma HangupIsCalm(s: System, c: ConnId)
    requires Inv(s) && SaneEvents(s) && Legal(s, Hangup(c))
    ensures Run(s, Hangup(c)).ok
  {
    HangupIs(s, c);
    hide Legal, Run;
    var r := Next(s, Report(c, HANGUP));
    KnownTokened(s, c);
    RegisteredIsUp(s, c);
    assert Calm(r, Dispatch(c)) by {
      hide Own, Base, Inv, Tokened, Placed, QueuesKnown;
    }
    hide Inv, Next, Calm, Up, Tokened, Placed, QueuesKnown;
    StepKeepsInv(s, Report(c, HANGUP));
    StepKeepsEvents(s, Report(c, HANGUP));
    StepKeepsInv(r, Dispatch(c));
    OkInv(Next(r, Dispatch(c)));
  }

  /** No assert has failed anywhere in a run, nor would have had a peer hung up, if and only if the run is calm. */
  lemma {:induction false} SafeIffCalm(s: System, acts: seq<Action>)
    requires Inv(s) && SaneEvents(s) && Legal(s, acts)
    ensures AlwaysHangupSafe(s, acts) <==> CalmRun(s, acts)
    decreases |acts|
  {
    InvIsHangupSafe(s);
    hide Inv, SaneEvents, HangupSafe, Enabled, Calm, Next, Stray;
    if |acts| > 0 {
      var n := Next(s, acts[0]);
      if Calm(s, acts[0]) {
        StepKeepsInv(s, acts[0]);
        StepKeepsEvents(s, acts[0]);
        SafeIffCalm(n, acts[1..]);
      } else {
        var c := NotCalmStrays(s, acts[0]);
        StrayIsNotSafe(n, c);
      }
    }
  }

  lemma StrayIsNotSafe(s: System, c: ConnId)
    requires Stray(s, c)
    ensures !HangupSafe(s)
  {
    StrayFails(s, c);
    hide Run, Legal, Stray;
  }

  /** From the start of the server on. */
  lemma RunsSafelyIff(n: nat, acts: seq<Action>)
    requires Legal(Started(n), acts)
    ensures AlwaysHangupSafe(Started(n), acts) <==> CalmRun(Started(n), acts)
  {
    StartedInv(n);
    hide Inv, SaneEvents, Started, Legal, CalmRun, AlwaysHangupSafe;
    SafeIffCalm(Started(n), acts);
  }

  // ---- What a calm run leaves out, exactly ----

  /** An open connection can be closed in order if and only if its event mask is not empty: disableAll registers
      an unwatched channel again instead of dropping it. */
  lemma ClosesInOrderIff(s: System, c: ConnId)
    requires Placed(s, c) && QueuesKnown(s) && Up(s, c) && c !in s.active
    ensures Tokened(HandleClose(s, c), c) <==> !NoneEvent(s.conns[c])
    ensures HandleClose(s, c).conns[c].index == Added <==> NoneEvent(s.conns[c])
  {
    if !NoneEvent(s.conns[c]) {
      CloseStep(s, c);
    }
    hide Own, Base, NowhereElse, IsIoLoop, Only;
  }

  /** connectDestroyed finds a channel it may remove if and only if it still takes the connection down itself, or
      the mask is already empty and the channel known to the poller: not for a connection in kDisconnecting that
      is still watched, which a server being destroyed hands over. */
  lemma DestroysInOrderIff(s: System, c: ConnId)
    requires Assigned(s, c) && s.ok
    ensures var k := s.conns[c];
      ConnectDestroyed(s, c).ok <==> k.state == Connected || (NoneEvent(k) && k.index != New)
  {
  }

  /** One loop and one connection. */
  function Single(k: Conn, listed: bool, active: map<ConnId, Revents>, tasks: seq<Task>, ok: bool): System {
    System(2, map[1 := k], if listed then {1} else {}, active, [tasks], ok)
  }

  const FRESH := Conn(0, Connected, true, true, false, Added, 1, 0, 0, 0)

  lemma FirstAccept()
    ensures Enabled(Started(0), Accept(0)) && Next(Started(0), Accept(0)) == Single(FRESH, true, map[], [], true)
  {
    assert Started(0) == System(1, map[], {}, map[], [[]], true);
    assert Next(Started(0), Accept(0)) == ConnectEstablished(Registered(Started(0), 0), 1);
  }

  lemma SinglePush(k: Conn, listed: bool, tasks: seq<Task>, t: Task, ok: bool)
    ensures Push(Single(k, listed, map[], tasks, ok), 0, t) == Single(k, listed, map[], tasks + [t], ok)
  {
  }

  lemma SingleClose(k: Conn, tasks: seq<Task>)
    requires k.loop == 0 && Open(k.state)
    ensures HandleClose(Single(k, true, map[], tasks, true), 1) ==
      Single(TakenDown(k).(removals := k.removals + 1), false, map[], tasks + [Destroy(1)], true)
  {
    SinglePush(TakenDown(k).(removals := k.removals + 1), false, tasks, Destroy(1), true);
  }

  lemma SingleDispatch(k: Conn, listed: bool, tasks: seq<Task>)
    requires k.loop == 0
    ensures Next(Single(k, listed, map[1 := HANGUP], tasks, true), Dispatch(1)) ==
      HandleClose(Single(k, listed, map[], tasks, true), 1)
  {
    assert Single(k, listed, map[1 := HANGUP], tasks, true).active - {1} == map[];
    hide HandleClose;
  }

  /** startRead from another thread overtaken by a hang-up: the closed connection is watched again when it is
      destroyed, and Channel::remove's assert fails. */
  lemma StartReadAfterCloseFails()
    ensures var acts := [Accept(0), CallStartRead(1, Elsewhere), Report(1, HANGUP), Dispatch(1),
                         RunFunctor(0), RunFunctor(0)];
      Legal(Started(0), acts) && !Run(Started(0), acts).ok
  {
    var closed := FRESH.(state := Disconnected, read := false, index := Deleted, downs := 1, removals := 1);
    var s1 := Single(FRESH, true, map[], [], true);
    var s2 := Single(FRESH, true, map[], [StartReadInLoop(1)], true);
    var s3 := Single(FRESH, true, map[1 := HANGUP], [StartReadInLoop(1)], true);
    var s4 := Single(closed, false, map[], [StartReadInLoop(1), Destroy(1)], true);
    var s5 := Single(closed.(read := true, index := Added), false, map[], [Destroy(1)], true);
    var s6 := Next(s5, RunFunctor(0));
    assert !s6.ok;
    Ahead(s5, RunFunctor(0), s6, []);
    Ahead(s4, RunFunctor(0), s5, [RunFunctor(0)]);
    SingleDispatch(FRESH, true, [StartReadInLoop(1)]);
    SingleClose(FRESH, [StartReadInLoop(1)]);
    assert [StartReadInLoop(1)] + [Destroy(1)] == [StartReadInLoop(1), Destroy(1)];
    Ahead(s3, Dispatch(1), s4, [RunFunctor(0), RunFunctor(0)]);
    Ahead(s2, Report(1, HANGUP), s3, [Dispatch(1), RunFunctor(0), RunFunctor(0)]);
    SinglePush(FRESH, true, [], StartReadInLoop(1), true);
    assert [] + [StartReadInLoop(1)] == [StartReadInLoop(1)];
    Ahead(s1, CallStartRead(1, Elsewhere), s2, [Report(1, HANGUP), Dispatch(1), RunFunctor(0), RunFunctor(0)]);
    FirstAccept();
    hide Enabled, Next, Legal, Run;
    Ahead(Started(0), Accept(0), s1,
          [CallStartRead(1, Elsewhere), Report(1, HANGUP), Dispatch(1), RunFunctor(0), RunFunctor(0)]);
  }

  const STOPPED := FRESH.(read := false, reading := false, index := Deleted)

  lemma ForcedCloseThenHangup()
    ensures var s := Single(STOPPED.(state := Disconnecting), true, map[], [ForceCloseInLoop(1)], true);
      var acts := [RunFunctor(0), Report(1, HANGUP), Dispatch(1)];
      Legal(s, acts) && !Run(s, acts).ok
  {
    var k := STOPPED.(state := Disconnecting);
    var closed := k.(state := Disconnected, index := Added, downs := 1, removals := 1);
    var s3 := Single(k, true, map[], [ForceCloseInLoop(1)], true);
    var s4 := Single(closed, false, map[], [Destroy(1)], true);
    var s5 := Single(closed, false, map[1 := HANGUP], [Destroy(1)], true);
    var s6 := Next(s5, Dispatch(1));
    SingleDispatch(closed, false, [Destroy(1)]);
    assert !s6.ok;
    Ahead(s5, Dispatch(1), s6, []);
    Ahead(s4, Report(1, HANGUP), s5, [Dispatch(1)]);
    SingleClose(k, []);
    assert Popped(s3, 0) == Single(k, true, map[], [], true) by {
      assert s3.queues[0][1..] == [];
      assert s3.queues[0 := []] == [[]];
    }
    assert [] + [Destroy(1)] == [Destroy(1)];
    hide HandleClose, Legal, Run;
    Ahead(s3, RunFunctor(0), s4, [Report(1, HANGUP), Dispatch(1)]);
  }

  /** A connection that stopped reading and is then forced to close is registered again with an empty mask, so a
      hang-up still reaches it: handleClose's assert fails on the second close. */
  lemma StopReadThenForceCloseFails()
    ensures var acts := [Accept(0), CallStopRead(1, FromLoop(0)), ForceClose(1), RunFunctor(0),
                         Report(1, HANGUP), Dispatch(1)];
      Legal(Started(0), acts) && !Run(Started(0), acts).ok
  {
    var s1 := Single(FRESH, true, map[], [], true);
    var s2 := Single(STOPPED, true, map[], [], true);
    var s3 := Single(STOPPED.(state := Disconnecting), true, map[], [ForceCloseInLoop(1)], true);
    ForcedCloseThenHangup();
    hide Legal, Run;
    SinglePush(STOPPED.(state := Disconnecting), true, [], ForceCloseInLoop(1), true);
    assert [] + [ForceCloseInLoop(1)] == [ForceCloseInLoop(1)];
    Ahead(s2, ForceClose(1), s3, [RunFunctor(0), Report(1, HANGUP), Dispatch(1)]);
    Ahead(s1, CallStopRead(1, FromLoop(0)), s2, [ForceClose(1), RunFunctor(0), Report(1, HANGUP), Dispatch(1)]);
    FirstAccept();
    hide Enabled, Next;
    Ahead(Started(0), Accept(0), s1,
          [CallStopRead(1, FromLoop(0)), ForceClose(1), RunFunctor(0), Report(1, HANGUP), Dispatch(1)]);
  }

  /** No connection of `s` is further on in `s` than in `r`. */
  ghost predicate Forward(s: System, r: System) {
    forall c :: c in s.conns ==> c in r.conns && Rank(s.conns[c].state) <= Rank(r.conns[c].state)
  }

  lemma PutForward(s: System, c: ConnId, k: Conn)
    requires c in s.conns ==> Rank(s.conns[c].state) <= Rank(k.state)
    ensures Forward(s, Put(s, c, k))
  {
  }

  lemma ForwardThrough(s: System, t: System, r: System)
    requires Forward(s, t) && r.conns == t.conns
    ensures Forward(s, r)
  {
  }

  lemma CloseForward(s: System, c: ConnId)
    requires Assigned(s, c)
    ensures Forward(s, HandleClose(s, c))
  {
    hide Forward;
    var t := Put(s, c, Unlisted(TakenDown(s.conns[c])));
    PutForward(s, c, TakenDown(s.conns[c]));
    PutForward(s, c, Unlisted(TakenDown(s.conns[c])));
    if s.conns[c].loop == 0 {
      assert HandleClose(s, c).conns == t.conns;
      ForwardThrough(s, t, HandleClose(s, c));
    } else {
      ForwardThrough(s, Put(s, c, TakenDown(s.conns[c])), HandleClose(s, c));
    }
  }

  lemma EstablishForward(s: System, c: ConnId)
    requires Assigned(s, c) && s.conns[c].state == Connecting
    ensures Forward(s, ConnectEstablished(s, c))
  {
    hide Forward;
    PutForward(s, c, Established(s.conns[c]));
    ForwardThrough(s, Put(s, c, Established(s.conns[c])), ConnectEstablished(s, c));
  }

  lemma RemoveForward(s: System, c: ConnId)
    requires Assigned(s, c)
    ensures Forward(s, RemoveConnectionInLoop(s, c))
  {
    hide Forward;
    PutForward(s, c, Unlisted(s.conns[c]));
    ForwardThrough(s, Put(s, c, Unlisted(s.conns[c])), RemoveConnectionInLoop(s, c));
  }

  lemma DestroyForward(s: System, c: ConnId)
    requires Assigned(s, c)
    ensures Forward(s, ConnectDestroyed(s, c))
  {
    hide Forward;
    PutForward(s, c, Destroyed(s.conns[c]));
    ForwardThrough(s, Put(s, c, Destroyed(s.conns[c])), ConnectDestroyed(s, c));
  }

  lemma ReadForward(s: System, c: ConnId, on: bool)
    requires Assigned(s, c)
    ensures Forward(s, SetReading(s, c, on))
  {
    hide Forward;
    PutForward(s, c, Reading(s.conns[c], on));
  }

  lemma ExecuteForward(s: System, t: Task)
    requires Assigned(s, t.conn) && (t.Establish? ==> s.conns[t.conn].state == Connecting)
    ensures Forward(s, Execute(s, t))
  {
    assert Forward(s, s);
    hide Forward, HandleClose, ConnectEstablished, RemoveConnectionInLoop, ConnectDestroyed, SetReading;
    match t
    case Establish(c) => EstablishForward(s, c);
    case Remove(c) => RemoveForward(s, c);
    case Destroy(c) => DestroyForward(s, c);
    case ForceCloseInLoop(c) => CloseForward(s, c);
    case ShutdownInLoop(c) =>
    case StartReadInLoop(c) => ReadForward(s, c, true);
    case StopReadInLoop(c) => ReadForward(s, c, false);
  }

  lemma EventForward(s: System, c: ConnId, ev: Revents)
    requires Assigned(s, c)
    ensures Forward(s, HandleEvent(s, c, ev))
  {
    CloseForward(s, c);
    var s1 := if ev.hup && !ev.rdin then HandleClose(s, c) else s;
    CloseForward(s1, c);
    hide HandleClose;
  }

  lemma RunInLoopForward(s: System, caller: Caller, l: LoopId, t: Task)
    requires Assigned(s, t.conn) && l < |s.queues| && (t.Establish? ==> s.conns[t.conn].state == Connecting)
    ensures Forward(s, RunInLoop(s, caller, l, t))
  {
    ExecuteForward(s, t);
    hide Execute;
  }

  /** A step never moves a connection's state backwards. */
  lemma StateMovesForward(s: System, a: Action)
    requires Inv(s) && Enabled(s, a)
    ensures Forward(s, Next(s, a))
  {
    hide Own, Base, Only, NowhereElse, Execute, HandleEvent, RunInLoop, Tokened, Touches, QueuesKnown;
    match a
    case Accept(io) =>
      assert Next(s, a) == RunInLoop(Registered(s, io), FromLoop(0), io, Establish(s.nextConnId));
      RunInLoopForward(Registered(s, io), FromLoop(0), io, Establish(s.nextConnId));
    case RunFunctor(l) =>
      var t := s.queues[l][0];
      KnownTokened(s, t.conn);
      HeadFits(s, l);
      ExecuteForward(Popped(s, l), t);
    case Dispatch(c) =>
      EventForward(s.(active := s.active - {c}), c, s.active[c]);
    case Shutdown(c, caller) =>
      if s.conns[c].state == Connected {
        RunInLoopForward(Put(s, c, s.conns[c].(state := Disconnecting)), caller, s.conns[c].loop, ShutdownInLoop(c));
      }
    case CallStartRead(c, caller) =>
      RunInLoopForward(s, caller, s.conns[c].loop, StartReadInLoop(c));
    case CallStopRead(c, caller) =>
      RunInLoopForward(s, caller, s.conns[c].loop, StopReadInLoop(c));
    case _ =>
  }
}
