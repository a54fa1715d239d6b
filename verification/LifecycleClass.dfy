/** The members of Lifecycle in the form of the source: objects whose fields change in place. */
module LifecycleClass {
  import opened ChannelIndexes
  import opened ConnStates
  import opened Lifecycle

  /** net/Channel.cpp, with the poller's index kept up by updateChannel and removeChannel. */
  class Channel {
    const owner: ConnId
    var read: bool
    var write: bool
    var index: Index

    constructor (owner: ConnId)
      ensures this.owner == owner && !read && !write && index == New
    {
      this.owner := owner;
      read, write, index := false, false, New;
    }

    method UpdateIndex()
      modifies `index
      ensures index == (if old(index) != Added then Added else if !read && !write then Deleted else Added)
    {
      if index == New || index == Deleted {
        index := Added;
      } else if !read && !write {
        index := Deleted;
      }
    }

    method EnableReading()
      modifies `read, `index
      ensures read && index == Added
    {
      read := true;
      UpdateIndex();
    }

    method DisableReading()
      modifies `read, `index
      ensures !read && index == (if old(index) == Added && !write then Deleted else Added)
    {
      read := false;
      UpdateIndex();
    }

    method SetWriting(on: bool)
      modifies `write, `index
      ensures write == on && index == (if old(index) == Added && !read && !on then Deleted else Added)
    {
      write := on;
      UpdateIndex();
    }

    method DisableAll()
      modifies this
      ensures !read && !write && index == (if old(index) == Added then Deleted else Added)
    {
      read, write := false, false;
      UpdateIndex();
    }

    /** Both asserts on the way to the poller: an empty mask, and a channel it knows. */
    method Remove() returns (ok: bool)
      modifies `index
      ensures ok == (!read && !write && old(index) != New) && index == New
    {
      ok := !read && !write && index != New;
      index := New;
    }
  }

  /** net/TcpConnection.cpp; each member reports whether its assert held. The ghost fields count what happened. */
  class TcpConnection {
    const id: ConnId
    const loop: LoopId
    const channel: Channel
    var state: ConnState
    var reading: bool
    ghost var ups: nat
    ghost var downs: nat
    ghost var removals: nat
    ghost var destructions: nat

    constructor (id: ConnId, loop: LoopId)
      ensures fresh(channel) && Valid() && this.id == id
      ensures Abs() == Conn(loop, Connecting, true, false, false, New, 0, 0, 0, 0)
    {
      this.id, this.loop := id, loop;
      channel := new Channel(id);
      state, reading := Connecting, true;
      ups, downs, removals, destructions := 0, 0, 0, 0;
    }

    ghost predicate Valid() {
      channel.owner == id
    }

    ghost function Abs(): Conn
      reads this, channel
    {
      Conn(loop, state, reading, channel.read, channel.write, channel.index, ups, downs, removals, destructions)
    }

    method ConnectEstablished() returns (ok: bool)
      modifies this, channel
      ensures ok == (old(state) == Connecting) && Abs() == Established(old(Abs()))
    {
      ok := state == Connecting;
      state := Connected;
      channel.EnableReading();
      ups := ups + 1;
    }

    method ConnectDestroyed() returns (ok: bool)
      modifies this, channel
      ensures ok == Removable(old(Abs())) && Abs() == Destroyed(old(Abs()))
    {
      if state == Connected {
        state := Disconnected;
        channel.DisableAll();
        downs := downs + 1;
      }
      ok := channel.Remove();
      destructions := destructions + 1;
    }

    /** handleClose up to its closeCallback_. */
    method TakeDown() returns (ok: bool)
      modifies this, channel
      ensures ok == Open(old(state)) && Abs() == TakenDown(old(Abs()))
    {
      ok := state == Connected || state == Disconnecting;
      state := Disconnected;
      channel.DisableAll();
      downs := downs + 1;
    }

    ghost method NoteRemoval()
      modifies `removals
      ensures Abs() == Unlisted(old(Abs()))
    {
      removals := removals + 1;
    }

    method StartReadInLoop()
      modifies this, channel
      ensures Abs() == Reading(old(Abs()), true)
    {
      if !reading || !channel.read {
        channel.EnableReading();
        reading := true;
      }
    }

    method StopReadInLoop()
      modifies this, channel
      ensures Abs() == Reading(old(Abs()), false)
    {
      if reading || channel.read {
        channel.DisableReading();
        reading := false;
      }
    }
  }

  /** net/TcpServer.cpp together with its loops; `conns` are all connections ever made. */
  class TcpServer {
    var nextConnId: ConnId
    var connections: set<ConnId>
    var conns: map<ConnId, TcpConnection>
    var active: map<ConnId, Revents>
    var queues: seq<seq<Task>>
    var ok: bool

    ghost function Repr(): set<object>
      reads this
    {
      {this} + (set c | c in conns :: conns[c]) + (set c | c in conns :: conns[c].channel)
    }

    ghost predicate Valid()
      reads this
    {
      |queues| > 0 && forall c :: c in conns ==> conns[c].id == c && conns[c].Valid()
    }

    ghost function Conns(): map<ConnId, Conn>
      reads Repr()
    {
      map c | c in conns :: conns[c].Abs()
    }

    ghost function Abs(): System
      reads Repr()
    {
      System(nextConnId, Conns(), connections, active, queues, ok)
    }

    constructor (numThreads: nat)
      ensures Valid() && Abs() == Started(numThreads)
    {
      nextConnId, connections, conns, active := 1, {}, map[], map[];
      queues := seq(numThreads + 1, _ => []);
      ok := true;
    }

    /** Only one connection's fields have changed. */
    twostate lemma OnlyOne(c: ConnId)
      requires old(Valid()) && conns == old(conns) && c in conns
      requires forall d :: d in conns && d != c ==> unchanged(conns[d]) && unchanged(conns[d].channel)
      ensures Conns() == old(Conns())[c := conns[c].Abs()]
    {
    }

    /** One connection has been added. */
    twostate lemma OneNew(c: ConnId)
      requires old(Valid()) && c in conns && c !in old(conns) && conns == old(conns)[c := conns[c]]
      requires forall d :: d in old(conns) ==> unchanged(conns[d]) && unchanged(conns[d].channel)
      ensures Conns() == old(Conns())[c := conns[c].Abs()]
    {
    }

    method QueueInLoop(l: LoopId, t: Task)
      requires Valid() && l < |queues|
      modifies `queues
      ensures Valid() && Abs() == Push(old(Abs()), l, t)
    {
      queues := queues[l := queues[l] + [t]];
    }

    method ConnectEstablished(c: ConnId)
      requires Valid() && Assigned(Abs(), c)
      modifies `ok, conns[c], conns[c].channel
      ensures Valid() && Abs() == Lifecycle.ConnectEstablished(old(Abs()), c)
    {
      hide Established;
      var held := conns[c].ConnectEstablished();
      ok := ok && held;
      OnlyOne(c);
    }

    method ConnectDestroyed(c: ConnId)
      requires Valid() && Assigned(Abs(), c)
      modifies `ok, conns[c], conns[c].channel
      ensures Valid() && Abs() == Lifecycle.ConnectDestroyed(old(Abs()), c)
    {
      hide Removable, Destroyed;
      var held := conns[c].ConnectDestroyed();
      ok := ok && held;
      OnlyOne(c);
    }

    /** connections_.erase and its assert. */
    method Erase(c: ConnId)
      requires Valid() && Assigned(Abs(), c)
      modifies `ok, `connections, conns[c]
      ensures Valid() && Abs() == Erased(old(Abs()), c)
    {
      hide Unlisted;
      conns[c].NoteRemoval();
      ok := ok && c in connections;
      connections := connections - {c};
      OnlyOne(c);
    }

    method RemoveConnectionInLoop(c: ConnId)
      requires Valid() && Assigned(Abs(), c)
      modifies `ok, `connections, `queues, conns[c]
      ensures Valid() && Abs() == Lifecycle.RemoveConnectionInLoop(old(Abs()), c)
    {
      Erase(c);
      var l := conns[c].loop;
      assert l == Abs().conns[c].loop;
      hide Conns;
      QueueInLoop(l, Destroy(c));
    }

    /** removeConnection, called in the connection's loop. */
    method RemoveConnection(c: ConnId)
      requires Valid() && Assigned(Abs(), c)
      modifies `ok, `connections, `queues, conns[c]
      ensures Valid()
      ensures Abs() == (if old(conns[c].loop) == 0 then Lifecycle.RemoveConnectionInLoop(old(Abs()), c)
                        else Push(old(Abs()), 0, Remove(c)))
    {
      if conns[c].loop == 0 {
        RemoveConnectionInLoop(c);
      } else {
        QueueInLoop(0, Remove(c));
      }
    }

    method HandleClose(c: ConnId)
      requires Valid() && Assigned(Abs(), c)
      modifies `ok, `connections, `queues, conns[c], conns[c].channel
      ensures Valid() && Abs() == Lifecycle.HandleClose(old(Abs()), c)
    {
      hide TakenDown;
      var held := conns[c].TakeDown();
      ok := ok && held;
      OnlyOne(c);
      RemoveConnection(c);
    }

    method SetReading(c: ConnId, on: bool)
      requires Valid() && Assigned(Abs(), c)
      modifies conns[c], conns[c].channel
      ensures Valid() && Abs() == Lifecycle.SetReading(old(Abs()), c, on)
    {
      if on {
        conns[c].StartReadInLoop();
      } else {
        conns[c].StopReadInLoop();
      }
      OnlyOne(c);
    }

    method Execute(t: Task)
      requires Valid() && Assigned(Abs(), t.conn)
      modifies `ok, `connections, `queues, conns[t.conn], conns[t.conn].channel
      ensures Valid() && Abs() == Lifecycle.Execute(old(Abs()), t)
    {
      match t
      case Establish(c) => ConnectEstablished(c);
      case Remove(c) => RemoveConnectionInLoop(c);
      case Destroy(c) => ConnectDestroyed(c);
      case ForceCloseInLoop(c) =>
        if conns[c].state == Connected || conns[c].state == Disconnecting {
          HandleClose(c);
        }
      case ShutdownInLoop(c) =>
      case StartReadInLoop(c) => SetReading(c, true);
      case StopReadInLoop(c) => SetReading(c, false);
    }

    method RunInLoop(caller: Caller, l: LoopId, t: Task)
      requires Valid() && Assigned(Abs(), t.conn) && l < |queues|
      modifies `ok, `connections, `queues, conns[t.conn], conns[t.conn].channel
      ensures Valid() && Abs() == Lifecycle.RunInLoop(old(Abs()), caller, l, t)
    {
      if caller == FromLoop(l) {
        Execute(t);
      } else {
        QueueInLoop(l, t);
      }
    }

    method Register(io: LoopId)
      requires Valid() && nextConnId !in conns
      modifies `nextConnId, `conns, `connections
      ensures Valid() && Abs() == Registered(old(Abs()), io)
      ensures old(nextConnId) in conns && fresh(conns[old(nextConnId)]) && fresh(conns[old(nextConnId)].channel)
    {
      var conn := new TcpConnection(nextConnId, io);
      conns := conns[nextConnId := conn];
      connections := connections + {nextConnId};
      OneNew(nextConnId);
      hide Conns;
      nextConnId := nextConnId + 1;
    }

    /** The base loop accepts a socket for loop `io`. */
    method NewConnection(io: LoopId)
      requires Valid() && Enabled(Abs(), Accept(io))
      modifies this
      ensures Valid() && Abs() == Next(old(Abs()), Accept(io))
    {
      var c := nextConnId;
      assert IsIoLoop(Abs(), io) && c !in Abs().conns && c !in conns;
      Register(io);
      assert Assigned(Abs(), c);
      hide Lifecycle.RunInLoop, Conns, Registered, Assigned;
      RunInLoop(FromLoop(0), io, Establish(c));
    }

    method Pop(l: LoopId) returns (t: Task)
      requires Valid() && l < |queues| && |queues[l]| > 0
      modifies `queues
      ensures Valid() && t == old(queues[l][0]) && Abs() == Popped(old(Abs()), l)
    {
      t := queues[l][0];
      queues := queues[l := queues[l][1..]];
    }

    /** One functor of doPendingFunctors. */
    method RunFunctor(l: LoopId)
      requires Valid() && Enabled(Abs(), Action.RunFunctor(l))
      modifies `ok, `connections, `queues, conns[queues[l][0].conn], conns[queues[l][0].conn].channel
      ensures Valid() && Abs() == Next(old(Abs()), Action.RunFunctor(l))
    {
      assert Assigned(Abs(), queues[l][0].conn);
      var t := Pop(l);
      hide Lifecycle.Execute, Conns;
      Execute(t);
    }

    /** handleEventWithGuard on a channel taken from activeChannels_. */
    method HandleEvent(c: ConnId)
      requires Valid() && Enabled(Abs(), Dispatch(c))
      modifies `ok, `connections, `queues, `active, conns[c], conns[c].channel
      ensures Valid() && Abs() == Next(old(Abs()), Dispatch(c))
    {
      hide Lifecycle.HandleClose;
      var revents := active[c];
      active := active - {c};
      assert Conns() == old(Conns());
      hide Conns;
      if revents.hup && !revents.rdin {
        HandleClose(c);
      }
      if revents.rdin || revents.pri || revents.rdhup {
        if revents.eof {
          HandleClose(c);
        }
      }
    }

    method Shutdown(c: ConnId, caller: Caller)
      requires Valid() && Enabled(Abs(), Action.Shutdown(c, caller))
      modifies `ok, `connections, `queues, conns[c], conns[c].channel
      ensures Valid() && Abs() == Next(old(Abs()), Action.Shutdown(c, caller))
    {
      var conn := conns[c];
      if conn.state == Connected {
        conn.state := Disconnecting;
        OnlyOne(c);
        RunInLoop(caller, conn.loop, ShutdownInLoop(c));
      }
    }

    method ForceClose(c: ConnId)
      requires Valid() && Enabled(Abs(), Action.ForceClose(c))
      modifies `queues, conns[c]
      ensures Valid() && Abs() == Next(old(Abs()), Action.ForceClose(c))
    {
      var conn := conns[c];
      if conn.state == Connected || conn.state == Disconnecting {
        conn.state := Disconnecting;
        OnlyOne(c);
        QueueInLoop(conn.loop, ForceCloseInLoop(c));
      }
    }

    method StartRead(c: ConnId, caller: Caller)
      requires Valid() && Enabled(Abs(), CallStartRead(c, caller))
      modifies `ok, `connections, `queues, conns[c], conns[c].channel
      ensures Valid() && Abs() == Next(old(Abs()), CallStartRead(c, caller))
    {
      assert Abs().conns[c].loop == conns[c].loop;
      hide Lifecycle.RunInLoop, Conns;
      RunInLoop(caller, conns[c].loop, StartReadInLoop(c));
    }

    method StopRead(c: ConnId, caller: Caller)
      requires Valid() && Enabled(Abs(), CallStopRead(c, caller))
      modifies `ok, `connections, `queues, conns[c], conns[c].channel
      ensures Valid() && Abs() == Next(old(Abs()), CallStopRead(c, caller))
    {
      assert Abs().conns[c].loop == conns[c].loop;
      hide Lifecycle.RunInLoop, Conns;
      RunInLoop(caller, conns[c].loop, StopReadInLoop(c));
    }

    /** enableWriting or disableWriting. */
    method SetWriting(c: ConnId, on: bool)
      requires Valid() && Enabled(Abs(), Action.SetWriting(c, on))
      modifies conns[c].channel
      ensures Valid() && Abs() == Next(old(Abs()), Action.SetWriting(c, on))
    {
      assert Abs().conns[c] == conns[c].Abs();
      conns[c].channel.SetWriting(on);
      OnlyOne(c);
      hide Conns;
    }

    /** poll puts the channel of `c` into activeChannels_. */
    method Report(c: ConnId, revents: Revents)
      requires Valid() && Enabled(Abs(), Action.Report(c, revents))
      modifies `active
      ensures Valid() && Abs() == Next(old(Abs()), Action.Report(c, revents))
    {
      active := active[c := revents];
      assert Conns() == old(Conns());
      hide Conns;
    }
  }
}
