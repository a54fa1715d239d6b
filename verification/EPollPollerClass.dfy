/** EPollPollers in the form of the source: the poller and its channels change in place. */
module EPollPollerClass {
  import opened ChannelIndexes
  import opened EPollPollers

  /** The part of a Channel the poller reads and writes. */
  class Channel {
    const id: Addr
    const fd: nat
    var events: nat
    var revents: nat
    var index: Index

    constructor (id: Addr, fd: nat)
      ensures this.id == id && Abs() == Chan(fd, 0, New)
    {
      this.id, this.fd := id, fd;
      events, revents, index := 0, 0, New;
    }

    ghost function Abs(): Chan
      reads this
    {
      Chan(fd, events, index)
    }
  }

  class EPollPoller {
    var channels: map<nat, Channel>
    /** The epoll set behind epollfd_, and whether it has refused a call. */
    var kernel: map<nat, Entry>
    var refused: bool
    /** All channels of the program. */
    ghost var chans: map<Addr, Channel>

    ghost predicate Valid()
      reads this
    {
      && (forall a :: a in chans ==> chans[a].id == a)
      && (forall f :: f in channels ==> channels[f].id in chans && chans[channels[f].id] == channels[f])
    }

    ghost predicate Has(channel: Channel)
      reads this
    {
      channel.id in chans && chans[channel.id] == channel
    }

    ghost function Chans(): map<Addr, Chan>
      reads `chans, chans.Values
    {
      map a | a in chans :: chans[a].Abs()
    }

    ghost function Ids(): map<nat, Addr>
      reads `channels
    {
      map f | f in channels :: channels[f].id
    }

    ghost function Abs(): Poller
      reads this, chans.Values
    {
      Poller(Chans(), Ids(), kernel)
    }

    constructor ()
      ensures Valid() && Abs() == EMPTY && !refused
    {
      channels, kernel, chans, refused := map[], map[], map[], false;
    }

    method Update(operation: Op, channel: Channel)
      modifies `kernel, `refused
      ensures kernel == Ctl(old(kernel), operation, channel.fd, Entry(channel.events, channel.id))
      ensures refused == (old(refused) || !CtlOk(old(kernel), operation, channel.fd))
    {
      var fd := channel.fd;
      match operation
      case ADD =>
        if fd in kernel { refused := true; } else { kernel := kernel[fd := Entry(channel.events, channel.id)]; }
      case MOD =>
        if fd in kernel { kernel := kernel[fd := Entry(channel.events, channel.id)]; } else { refused := true; }
      case DEL =>
        if fd in kernel { kernel := kernel - {fd}; } else { refused := true; }
    }

    method Enter(channel: Channel)
      requires Valid() && Has(channel)
      modifies `channels
      ensures Valid() && Ids() == old(Ids())[channel.fd := channel.id]
    {
      channels := channels[channel.fd := channel];
    }

    /** updateChannel of a channel kNew or kDeleted. */
    method Add(channel: Channel)
      requires Valid() && Has(channel) && channel.index != Added
      modifies this, channel`index
      ensures Valid() && chans == old(chans)
      ensures Chans() == old(Chans())[channel.id := old(channel.Abs()).(index := Added)]
      ensures Ids() == if old(channel.index) == New then old(Ids())[channel.fd := channel.id] else old(Ids())
      ensures kernel == Ctl(old(kernel), ADD, channel.fd, Entry(channel.events, channel.id))
      ensures refused == (old(refused) || !CtlOk(old(kernel), ADD, channel.fd))
    {
      if channel.index == New {
        Enter(channel);
      }
      assert Valid();
      hide Ids;
      channel.index := Added;
      assert Chans() == old(Chans())[channel.id := channel.Abs()];
      hide Chans, Ids, Ctl, CtlOk;
      Update(ADD, channel);
    }

    /** updateChannel of a channel kAdded. */
    method Change(channel: Channel)
      requires Valid() && Has(channel) && channel.index == Added
      modifies `kernel, `refused, channel`index
      ensures Valid()
      ensures Chans() == old(Chans())[channel.id := channel.Abs()]
      ensures channel.index == if channel.events == 0 then Deleted else Added
      ensures var op := if channel.events == 0 then DEL else MOD;
        && kernel == Ctl(old(kernel), op, channel.fd, Entry(channel.events, channel.id))
        && refused == (old(refused) || !CtlOk(old(kernel), op, channel.fd))
    {
      if channel.events == 0 {
        Update(DEL, channel);
        channel.index := Deleted;
      } else {
        Update(MOD, channel);
      }
    }

    method UpdateChannel(channel: Channel)
      requires Valid() && Has(channel) && UpdateOk(Abs(), channel.id)
      modifies this, channel`index
      ensures Valid() && chans == old(chans) && Abs() == Updated(old(Abs()), channel.id)
      ensures refused == (old(refused) || !CtlOk(old(kernel), UpdateOp(old(channel.Abs())), channel.fd))
    {
      assert Chans()[channel.id] == channel.Abs();
      hide Chans, Ids, UpdateOk, CtlOk, Ctl;
      if channel.index == New || channel.index == Deleted {
        Add(channel);
      } else {
        Change(channel);
      }
    }

    method RemoveChannel(channel: Channel)
      requires Valid() && Has(channel) && RemoveOk(Abs(), channel.id)
      modifies this, channel`index
      ensures Valid() && chans == old(chans) && Abs() == Removed(old(Abs()), channel.id)
      ensures refused == (old(refused) || (old(channel.index) == Added && !CtlOk(old(kernel), DEL, channel.fd)))
    {
      assert Chans()[channel.id] == channel.Abs();
      channels := channels - {channel.fd};
      assert Ids() == old(Ids()) - {channel.fd};
      if channel.index == Added {
        Update(DEL, channel);
      }
      channel.index := New;
      assert Chans() == old(Chans())[channel.id := channel.Abs()];
      hide Chans, Ids, RemoveOk, CtlOk, Ctl;
    }

    /** A member of Channel: sets the events, then updates. On a poller in agreement with the kernel no call
        is refused. */
    method SetEvents(channel: Channel, events: nat)
      requires Valid() && Inv(Abs()) && Has(channel) && Legal(Abs(), Set(channel.id, events))
      modifies this, channel
      ensures Valid() && Next(old(Abs()), Set(channel.id, events)) == Fine(Abs()) && Inv(Abs())
      ensures refused == old(refused)
    {
      ghost var p := Abs();
      StepKeeps(p, Set(channel.id, events));
      AssertsHoldIff(p, channel.id, events);
      assert channel.Abs() == p.chans[channel.id];
      channel.events := events;
      assert Chans() == old(Chans())[channel.id := channel.Abs()] && Ids() == old(Ids());
      hide Inv, Chans, Ids, UpdateOk, Legal, Updated, CtlOk, UpdateOp;
      UpdateChannel(channel);
    }

    /** The debug asserts of fillActiveChannels, for a pointer the kernel gave back. */
    method Find(channel: Channel) returns (known: bool)
      requires Valid() && Inv(Abs()) && Has(channel) && Watched(Abs(), channel.id)
      ensures known
    {
      known := channel.fd in channels && channels[channel.fd] == channel;
      WatchedIsRegistered(Abs(), channel.id);
      assert Abs().chans[channel.id] == channel.Abs();
      assert channel.fd in Ids() && Ids()[channel.fd] == channel.id;
    }

    method Tell(channel: Channel, revents: nat)
      modifies channel`revents
      ensures channel.revents == revents && Abs() == old(Abs())
    {
      channel.revents := revents;
    }

    /** Each channel of the first `n` events holds the revents of its last one. */
    static ghost predicate LastTold(events: seq<(nat, Channel)>, n: nat)
      requires n <= |events|
      reads set i | 0 <= i < |events| :: events[i].1
    {
      forall i :: 0 <= i < n && (forall j :: i < j < n ==> events[j].1 != events[i].1) ==>
        events[i].1.revents == events[i].0
    }

    static lemma NothingTold(events: seq<(nat, Channel)>)
      ensures LastTold(events, 0)
    {
    }

    method TellNext(channel: Channel, events: seq<(nat, Channel)>, i: nat)
      requires i < |events| && channel == events[i].1 && LastTold(events, i)
      modifies channel`revents
      ensures Abs() == old(Abs()) && LastTold(events, i + 1)
    {
      hide Chans, Ids;
      Tell(channel, events[i].0);
    }

    /** Hands on what epoll_wait filled in, in its order. */
    method FillActiveChannels(events: seq<(nat, Channel)>) returns (active: seq<Channel>)
      requires Valid() && Inv(Abs())
      requires forall i :: 0 <= i < |events| ==> Has(events[i].1) && Watched(Abs(), events[i].1.id)
      modifies set i | 0 <= i < |events| :: events[i].1
      ensures active == seq(|events|, i requires 0 <= i < |events| => events[i].1)
      ensures Abs() == old(Abs()) && LastTold(events, |events|)
    {
      hide Inv, Watched, Chans, Ids, LastTold;
      assert LastTold(events, 0) by {
        NothingTold(events);
      }
      active := [];
      for i := 0 to |events|
        invariant active == seq(i, j requires 0 <= j < i => events[j].1)
        invariant Abs() == old(Abs()) && LastTold(events, i)
      {
        var channel := events[i].1;
        var known := Find(channel);
        assert known;
        TellNext(channel, events, i);
        active := active + [channel];
      }
    }
  }
}
