/** PollArray's poller as the object it is: vectors, maps and channels rewritten in place. */
module PollArrayClass {
  import opened PollArray

  /** The part of a Channel the poller reads and writes. */
  class Channel {
    const id: Addr
    const fd: nat
    var events: nat
    var revents: int
    var index: int

    constructor (id: Addr, fd: nat)
      ensures this.id == id && Abs() == Chan(fd, 0, 0, -1)
    {
      this.id, this.fd := id, fd;
      events, revents, index := 0, 0, -1;
    }

    ghost function Abs(): Chan
      reads this
    {
      Chan(fd, events, revents, index)
    }
  }

  class Poller {
    var pollfds: seq<PollFd>
    var channels: map<int, Channel>
    /** All channels of the program, and the history that Table keeps. */
    ghost var chans: map<Addr, Channel>
    ghost var silenced: set<Addr>

    ghost predicate Valid()
      reads this
    {
      && (forall a :: a in chans ==> chans[a].id == a)
      && (forall f :: f in channels ==> channels[f].id in chans && chans[channels[f].id] == channels[f])
    }

    ghost function Chans(): map<Addr, Chan>
      reads `chans, chans.Values
    {
      map a | a in chans :: chans[a].Abs()
    }

    ghost function Ids(): map<int, Addr>
      reads `channels
    {
      map f | f in channels :: channels[f].id
    }

    ghost function Abs(): Table
      reads this, chans.Values
    {
      Table(Chans(), pollfds, Ids(), silenced)
    }

    constructor ()
      ensures Valid() && Abs() == EMPTY
    {
      pollfds, channels, chans, silenced := [], map[], map[], {};
    }

    /** A member of Channel: sets the events, then updates. */
    method SetEvents(channel: Channel, events: nat)
      requires Valid() && channel.id in chans && chans[channel.id] == channel
      requires UpdateOk(WithEvents(Abs(), channel.id, events), channel.id)
      modifies this, channel
      ensures Valid() && chans == old(chans)
      ensures Abs() == Updated(WithEvents(old(Abs()), channel.id, events), channel.id)
    {
      channel.events := events;
      assert Abs() == WithEvents(old(Abs()), channel.id, events);
      UpdateChannel(channel);
    }

    /** updateChannel of a channel without a slot. */
    method AddSlot(channel: Channel)
      requires Valid() && channel.id in chans && chans[channel.id] == channel
      modifies this, channel`index
      ensures Valid() && chans == old(chans)
      ensures Chans() == old(Chans())[channel.id := old(channel.Abs()).(index := |old(pollfds)|)]
      ensures Ids() == old(Ids())[channel.fd as int := channel.id]
      ensures pollfds == old(pollfds) + [PollFd(channel.fd, channel.events, 0)]
      ensures silenced == old(silenced) - {channel.id}
    {
      pollfds := pollfds + [PollFd(channel.fd, channel.events, 0)];
      channel.index := |pollfds| - 1;
      channels := channels[channel.fd as int := channel];
      silenced := silenced - {channel.id};
    }

    method UpdateChannel(channel: Channel)
      requires Valid() && channel.id in chans && chans[channel.id] == channel
      requires UpdateOk(Abs(), channel.id)
      modifies this, channel`index
      ensures Valid() && chans == old(chans) && Abs() == Updated(old(Abs()), channel.id)
    {
      assert Abs().chans[channel.id] == channel.Abs();
      if channel.index < 0 {
        hide Chans, Ids;
        AddSlot(channel);
      } else {
        hide Registered;
        var idx := channel.index;
        var pfd := pollfds[idx].(events := channel.events, revents := 0);
        if channel.events == 0 {
          pfd := pfd.(fd := -1 - channel.fd);
          silenced := silenced + {channel.id};
        }
        pollfds := pollfds[idx := pfd];
        assert Chans() == old(Chans()) && Ids() == old(Ids());
        hide Chans, Ids;
      }
    }

    /** Exchanges slot `idx` with the last, then drops that; the channel that moved learns its new index. */
    method MoveLast(idx: nat)
      requires Valid() && idx < |pollfds| - 1 && Decoded(pollfds[|pollfds| - 1].fd) in channels
      modifies `pollfds, chans.Values
      ensures Valid()
      ensures var last := old(pollfds)[|old(pollfds)| - 1]; var moved := channels[Decoded(last.fd)].id;
        && pollfds == old(pollfds)[idx := last][..|old(pollfds)| - 1]
        && Chans() == old(Chans())[moved := old(Chans())[moved].(index := idx)]
    {
      var channelAtEnd := pollfds[|pollfds| - 1].fd;
      pollfds := pollfds[idx := pollfds[|pollfds| - 1]][|pollfds| - 1 := pollfds[idx]];
      if channelAtEnd < 0 {
        channelAtEnd := -channelAtEnd - 1;
      }
      channels[channelAtEnd].index := idx;
      pollfds := pollfds[..|pollfds| - 1];
    }

    method RemoveChannel(channel: Channel)
      requires Valid() && channel.id in chans && chans[channel.id] == channel
      requires RemoveOk(Abs(), channel.id)
      modifies `pollfds, `channels, chans.Values
      ensures Valid() && Abs() == Removed(old(Abs()), channel.id)
    {
      assert Abs().chans[channel.id] == channel.Abs();
      var idx := channel.index;
      channels := channels - {channel.fd as int};
      assert Ids() == old(Ids()) - {channel.fd as int} && Chans() == old(Chans());
      hide Registered;
      if idx == |pollfds| - 1 {
        pollfds := pollfds[..|pollfds| - 1];
      } else {
        assert Decoded(pollfds[|pollfds| - 1].fd) in Ids();
        MoveLast(idx);
        hide Chans, Ids;
      }
    }

    /** Ids of a list of channels. */
    static function IdsOf(list: seq<Channel>): seq<Addr> {
      seq(|list|, i requires 0 <= i < |list| => list[i].id)
    }

    /** Every channel of `active` has been told its slot's revents, the others nothing. */
    ghost predicate Told(t: Table, active: seq<Channel>)
      reads this, chans.Values
    {
      && chans.Keys == t.chans.Keys
      && forall a :: a in chans ==>
        && chans[a].id == a && chans[a].index == t.chans[a].index
        && (chans[a] !in active ==> chans[a].revents == t.chans[a].revents)
        && (chans[a] in active ==>
              0 <= chans[a].index < |pollfds| && chans[a].revents == pollfds[chans[a].index].revents)
    }

    static lemma IdsMore(active: seq<Channel>, channel: Channel)
      ensures IdsOf(active + [channel]) == IdsOf(active) + [channel.id]
    {
    }

    /** A slot with something to report: its channel is told. */
    method Visit(ghost t: Table, active: seq<Channel>, i: nat) returns (more: seq<Channel>)
      requires Valid() && Told(t, active) && Inv(t) && Sane(t.pollfds) && pollfds == t.pollfds && Ids() == t.channels
      requires i < |pollfds| && pollfds[i].revents > 0
      modifies chans.Values
      ensures Told(t, more)
      ensures pollfds[i].fd in t.channels && IdsOf(more) == IdsOf(active) + [t.channels[pollfds[i].fd]]
    {
      HitAt(t, i);
      hide Inv, Sane, IdsOf;
      var channel := channels[pollfds[i].fd];
      assert channel.id == t.channels[pollfds[i].fd];
      IdsMore(active, channel);
      channel.revents := pollfds[i].revents;
      more := active + [channel];
    }

    static lemma Regroup(a: seq<Addr>, x: Addr, rest: seq<Addr>)
      ensures a + ([x] + rest) == a + [x] + rest
    {
    }

    lemma NoneLeft(t: Table, i: nat, n: nat)
      requires i <= |t.pollfds| && (i == |t.pollfds| || n == 0)
      ensures Take(Hits(t, i), n) == []
    {
    }

    lemma NoneTold()
      requires Valid()
      ensures Told(Abs(), []) && IdsOf([]) == []
    {
    }

    /** The scan stops early, once it has found as many channels as poll(2) counted. */
    method FillActiveChannels(count: nat) returns (active: seq<Channel>)
      requires Valid() && Inv(Abs()) && Sane(pollfds)
      modifies chans.Values
      ensures IdsOf(active) == Take(Hits(old(Abs()), 0), count)
      ensures Told(old(Abs()), active)
    {
      hide Inv, Hits, Chans, Take, Told, IdsOf, Sane;
      ghost var t := Abs();
      NoneTold();
      active := [];
      var numEvents := count;
      var i := 0;
      while i < |pollfds| && numEvents > 0
        invariant 0 <= i <= |pollfds|
        invariant IdsOf(active) + Take(Hits(t, i), numEvents) == Take(Hits(t, 0), count)
        invariant Told(t, active)
      {
        if pollfds[i].revents > 0 {
          HitAt(t, i);
          TakeOne(t.channels[pollfds[i].fd], Hits(t, i + 1), numEvents);
          numEvents := numEvents - 1;
          Regroup(IdsOf(active), t.channels[pollfds[i].fd], Take(Hits(t, i + 1), numEvents));
          active := Visit(t, active, i);
        } else {
          MissAt(t, i);
        }
        i := i + 1;
      }
      NoneLeft(t, i, numEvents);
      assert IdsOf(active) + [] == IdsOf(active);
    }
  }
}
