/** reactor/s13/Poller.cpp: an array of pollfds handed to poll(2), kept in step with the channels by back-pointers.
    A silenced channel keeps its slot, with its fd stored as -fd-1 so that the kernel skips it. */
module PollArray {

  /** A channel's address. */
  type Addr = nat

  datatype Chan = Chan(fd: nat, events: nat, revents: int, index: int)

  datatype PollFd = PollFd(fd: int, events: nat, revents: int)

  /** `chans` are all the channels of the program, `channels` the poller's map from fds. `silenced` is history:
      the channels that have had an update with no events since they were registered. */
  datatype Table = Table(
    chans: map<Addr, Chan>, pollfds: seq<PollFd>, channels: map<int, Addr>, silenced: set<Addr>)

  function Decoded(x: int): int {
    if x < 0 then -x - 1 else x
  }

  predicate Registered(t: Table, a: Addr) {
    a in t.chans && t.chans[a].fd in t.channels && t.channels[t.chans[a].fd] == a
  }

  // ---- updateChannel ----

  /** The asserts of updateChannel. */
  predicate UpdateOk(t: Table, a: Addr)
    requires a in t.chans
  {
    var k := t.chans[a];
    if k.index < 0 then k.fd !in t.channels
    else
      && Registered(t, a) && 0 <= k.index < |t.pollfds|
      && (t.pollfds[k.index].fd == k.fd || t.pollfds[k.index].fd == -1 - k.fd)
  }

  function Updated(t: Table, a: Addr): Table
    requires a in t.chans && UpdateOk(t, a)
  {
    var k := t.chans[a];
    if k.index < 0 then
      t.(chans := t.chans[a := k.(index := |t.pollfds|)],
         pollfds := t.pollfds + [PollFd(k.fd, k.events, 0)],
         channels := t.channels[k.fd as int := a],
         silenced := t.silenced - {a})
    else
      var fd := if k.events == 0 then -1 - k.fd else t.pollfds[k.index].fd;
      t.(pollfds := t.pollfds[k.index := PollFd(fd, k.events, 0)],
         silenced := if k.events == 0 then t.silenced + {a} else t.silenced)
  }

  /** A member of Channel that sets its events and updates. */
  function WithEvents(t: Table, a: Addr, events: nat): Table
    requires a in t.chans
  {
    t.(chans := t.chans[a := t.chans[a].(events := events)])
  }

  // ---- removeChannel ----

  /** The asserts of removeChannel, and that the channel of the last slot is one it can find. */
  predicate RemoveOk(t: Table, a: Addr)
    requires a in t.chans
  {
    var k := t.chans[a];
    && Registered(t, a) && 0 <= k.index < |t.pollfds|
    && t.pollfds[k.index].fd == -1 - k.fd && t.pollfds[k.index].events == k.events
    && (k.index != |t.pollfds| - 1 ==>
          var f := Decoded(t.pollfds[|t.pollfds| - 1].fd);
          f != k.fd && f in t.channels && t.channels[f] in t.chans)
  }

  /** The last slot takes the place of the removed one, and its channel learns its new index;
      the removed channel keeps its old one. */
  function Removed(t: Table, a: Addr): Table
    requires a in t.chans && RemoveOk(t, a)
  {
    var idx := t.chans[a].index;
    var last := |t.pollfds| - 1;
    var channels := t.channels - {t.chans[a].fd as int};
    if idx == last then
      t.(pollfds := t.pollfds[..last], channels := channels)
    else
      var moved := channels[Decoded(t.pollfds[last].fd)];
      t.(chans := t.chans[moved := t.chans[moved].(index := idx)],
         pollfds := t.pollfds[idx := t.pollfds[last]][..last],
         channels := channels)
  }

  // ---- The bijection between registered channels and slots ----

  /** Channel `channels[f]` points at the slot whose decoded fd is `f`. */
  ghost predicate Indexed(t: Table, f: int) {
    && f in t.channels
    && var a := t.channels[f];
    && a in t.chans && t.chans[a].fd == f && 0 <= t.chans[a].index < |t.pollfds|
    && var slot := t.pollfds[t.chans[a].index];
    && Decoded(slot.fd) == f && slot.events == t.chans[a].events && (slot.fd < 0 <==> a in t.silenced)
  }

  /** Slot `i` belongs to a registered channel that points back at it. */
  ghost predicate Placed(t: Table, i: int) {
    && 0 <= i < |t.pollfds|
    && var f := Decoded(t.pollfds[i].fd);
    && f in t.channels && t.channels[f] in t.chans && t.chans[t.channels[f]].index == i
  }

  ghost predicate Inv(t: Table) {
    && (forall f :: f in t.channels ==> Indexed(t, f))
    && (forall i :: 0 <= i < |t.pollfds| ==> Placed(t, i))
  }

  /** With the bijection, the asserts of updateChannel hold exactly for a channel that is registered, or that never
      was and whose fd is free. */
  lemma UpdatesInOrderIff(t: Table, a: Addr)
    requires Inv(t) && a in t.chans
    ensures UpdateOk(t, a) <==> Registered(t, a) || (t.chans[a].index < 0 && t.chans[a].fd !in t.channels)
  {
    if Registered(t, a) {
      assert Indexed(t, t.chans[a].fd);
    }
  }

  /** And those of removeChannel exactly for a registered channel that was silenced at some time since: having no
      events now is neither needed nor enough. */
  lemma RemovesInOrderIff(t: Table, a: Addr)
    requires Inv(t) && a in t.chans
    ensures RemoveOk(t, a) <==> Registered(t, a) && a in t.silenced
  {
    if Registered(t, a) {
      assert Indexed(t, t.chans[a].fd);
      assert Placed(t, |t.pollfds| - 1);
    }
  }

  // ---- Steps ----

  datatype Action =
    | Open(a: Addr, fd: nat)
    | Set(a: Addr, events: nat)
    | Remove(a: Addr)
    | Poll(revents: seq<int>)

  /** poll(2) reports nothing for negative fds. */
  predicate Reported(pollfds: seq<PollFd>, revents: seq<int>) {
    && |revents| == |pollfds|
    && forall i :: 0 <= i < |pollfds| ==> revents[i] >= 0 && (pollfds[i].fd < 0 ==> revents[i] == 0)
  }

  predicate Legal(t: Table, a: Action) {
    match a
    case Open(c, _) => c !in t.chans
    case Set(c, _) => c in t.chans && (Registered(t, c) || (t.chans[c].index < 0 && t.chans[c].fd !in t.channels))
    case Remove(c) => Registered(t, c) && c in t.silenced
    case Poll(revents) => Reported(t.pollfds, revents)
  }

  function Polled(t: Table, revents: seq<int>): Table
    requires Reported(t.pollfds, revents)
  {
    t.(pollfds := seq(|t.pollfds|, i requires 0 <= i < |t.pollfds| => t.pollfds[i].(revents := revents[i])))
  }

  datatype Outcome = Fine(table: Table) | AssertFails

  function Next(t: Table, a: Action): Outcome
    requires Legal(t, a)
  {
    match a
    case Open(c, fd) => Fine(t.(chans := t.chans[c := Chan(fd, 0, 0, -1)]))
    case Set(c, events) =>
      var s := WithEvents(t, c, events);
      if UpdateOk(s, c) then Fine(Updated(s, c)) else AssertFails
    case Remove(c) => if RemoveOk(t, c) then Fine(Removed(t, c)) else AssertFails
    case Poll(revents) => Fine(Polled(t, revents))
  }

  lemma SetOk(t: Table, a: Addr, events: nat)
    requires Inv(t) && Legal(t, Set(a, events))
    ensures UpdateOk(WithEvents(t, a, events), a)
  {
    UpdatesInOrderIff(t, a);
    hide Inv;
  }

  lemma RegisterKeeps(t: Table, a: Addr, events: nat)
    requires Inv(t) && a in t.chans && t.chans[a].index < 0 && t.chans[a].fd !in t.channels
    ensures var s := WithEvents(t, a, events); UpdateOk(s, a) && Inv(Updated(s, a))
  {
    var r := Updated(WithEvents(t, a, events), a);
    forall f | f in r.channels
      ensures Indexed(r, f)
    {
      if f != t.chans[a].fd {
        assert Indexed(t, f);
      }
    }
    forall i | 0 <= i < |r.pollfds|
      ensures Placed(r, i)
    {
      if i < |t.pollfds| {
        assert Placed(t, i);
      }
    }
  }

  lemma RewriteKeeps(t: Table, a: Addr, events: nat)
    requires Inv(t) && Registered(t, a)
    ensures var s := WithEvents(t, a, events); UpdateOk(s, a) && Inv(Updated(s, a))
  {
    SetOk(t, a, events);
    var r := Updated(WithEvents(t, a, events), a);
    assert Indexed(t, t.chans[a].fd);
    forall f | f in r.channels
      ensures Indexed(r, f)
    {
      assert Indexed(t, f);
      if f != t.chans[a].fd {
        OtherSlot(t, f, t.chans[a].fd);
      }
    }
    forall i | 0 <= i < |r.pollfds|
      ensures Placed(r, i)
    {
      assert Placed(t, i);
    }
  }

  /** Channels of different fds have different slots. */
  lemma OtherSlot(t: Table, f: int, g: int)
    requires Indexed(t, f) && Indexed(t, g) && f != g
    ensures t.channels[f] != t.channels[g] && t.chans[t.channels[f]].index != t.chans[t.channels[g]].index
  {
  }

  lemma RemoveKeeps(t: Table, a: Addr)
    requires Inv(t) && a in t.chans && RemoveOk(t, a)
    ensures Inv(Removed(t, a))
  {
    var r := Removed(t, a);
    var last := |t.pollfds| - 1;
    var idx := t.chans[a].index;
    assert Placed(t, last) && Indexed(t, t.chans[a].fd);
    assert idx != last ==> Indexed(t, Decoded(t.pollfds[last].fd));
    forall f | f in r.channels
      ensures Indexed(r, f)
    {
      assert Indexed(t, f);
      OtherSlot(t, f, t.chans[a].fd);
    }
    forall i | 0 <= i < |r.pollfds|
      ensures Placed(r, i)
    {
      assert Placed(t, i);
      assert Placed(t, idx);
    }
  }

  lemma PollKeeps(t: Table, revents: seq<int>)
    requires Inv(t) && Reported(t.pollfds, revents)
    ensures Inv(Polled(t, revents))
  {
    var r := Polled(t, revents);
    forall f | f in r.channels
      ensures Indexed(r, f)
    {
      assert Indexed(t, f);
    }
    forall i | 0 <= i < |r.pollfds|
      ensures Placed(r, i)
    {
      assert Placed(t, i);
    }
  }

  lemma OpenKeeps(t: Table, a: Addr, fd: nat)
    requires Inv(t) && a !in t.chans
    ensures Inv(t.(chans := t.chans[a := Chan(fd, 0, 0, -1)]))
  {
    var r := t.(chans := t.chans[a := Chan(fd, 0, 0, -1)]);
    forall f | f in r.channels
      ensures Indexed(r, f)
    {
      assert Indexed(t, f);
    }
    forall i | 0 <= i < |r.pollfds|
      ensures Placed(r, i)
    {
      assert Placed(t, i);
    }
  }

  /** A legal call passes every assert and keeps the bijection. */
  lemma StepKeeps(t: Table, a: Action)
    requires Inv(t) && Legal(t, a)
    ensures Next(t, a).Fine? && Inv(Next(t, a).table)
  {
    hide Inv, Updated, Removed, Polled, UpdateOk, RemoveOk;
    match a
    case Open(c, fd) => OpenKeeps(t, c, fd);
    case Set(c, events) =>
      if Registered(t, c) {
        RewriteKeeps(t, c, events);
      } else {
        RegisterKeeps(t, c, events);
      }
    case Remove(c) =>
      RemovesInOrderIff(t, c);
      RemoveKeeps(t, c);
    case Poll(revents) => PollKeeps(t, revents);
  }

  /** Only slots the kernel looks at have something to report. */
  predicate Sane(pollfds: seq<PollFd>) {
    forall i :: 0 <= i < |pollfds| && pollfds[i].revents > 0 ==> pollfds[i].fd >= 0
  }

  lemma StepKeepsSane(t: Table, a: Action)
    requires Inv(t) && Sane(t.pollfds) && Legal(t, a)
    ensures Next(t, a).Fine? && Sane(Next(t, a).table.pollfds)
  {
    StepKeeps(t, a);
    hide Inv;
  }

  // ---- Runs ----

  const EMPTY := Table(map[], [], map[], {})

  ghost predicate LegalRun(t: Table, calls: seq<Action>)
    decreases |calls|
  {
    |calls| == 0 ||
    (Legal(t, calls[0]) && (Next(t, calls[0]).Fine? ==> LegalRun(Next(t, calls[0]).table, calls[1..])))
  }

  function Run(t: Table, calls: seq<Action>): Outcome
    requires LegalRun(t, calls)
    decreases |calls|
  {
    if |calls| == 0 then Fine(t)
    else match Next(t, calls[0])
      case Fine(s) => Run(s, calls[1..])
      case AssertFails => AssertFails
  }

  lemma {:induction false} RunKeeps(t: Table, calls: seq<Action>)
    requires Inv(t) && Sane(t.pollfds) && LegalRun(t, calls)
    ensures Run(t, calls).Fine? && Inv(Run(t, calls).table) && Sane(Run(t, calls).table.pollfds)
    decreases |calls|
  {
    hide Inv, Next, Legal, Sane;
    if |calls| == 0 {
    } else {
      StepKeeps(t, calls[0]);
      StepKeepsSane(t, calls[0]);
      RunKeeps(Next(t, calls[0]).table, calls[1..]);
    }
  }

  /** After any legal sequence of calls no assert has failed, and registered channels and slots are in bijection. */
  lemma BijectionHolds(calls: seq<Action>)
    requires LegalRun(EMPTY, calls)
    ensures Run(EMPTY, calls).Fine? && Inv(Run(EMPTY, calls).table)
  {
    RunKeeps(EMPTY, calls);
  }

  /** A channel that was removed is not registered anew: its index is never taken back. */
  lemma RemovedCannotReturn(t: Table, a: Addr, events: nat)
    requires Inv(t) && Legal(t, Remove(a))
    ensures var r := Next(t, Remove(a)); r.Fine? && !Legal(r.table, Set(a, events))
    ensures !UpdateOk(WithEvents(Next(t, Remove(a)).table, a, events), a)
  {
    RemovesInOrderIff(t, a);
    StepKeeps(t, Remove(a));
    var r := Next(t, Remove(a)).table;
    hide Inv;
    assert t.chans[a].index >= 0 && r.chans[a].index >= 0;
    UpdatesInOrderIff(r, a);
  }

  /** The kernel skips the slot of a registered channel if and only if the channel has had an update with no events
      since it was registered; the events it asks for now do not matter. */
  lemma DeafIff(t: Table, a: Addr)
    requires Inv(t) && Registered(t, a)
    ensures 0 <= t.chans[a].index < |t.pollfds|
    ensures t.pollfds[t.chans[a].index].fd < 0 <==> a in t.silenced
  {
    assert Indexed(t, t.chans[a].fd);
  }

  /** Once silenced, a channel is skipped by the kernel until it is removed, whatever events it asks for later. */
  lemma SilencedStaysDeaf(t: Table, a: Addr, call: Action)
    requires Inv(t) && Registered(t, a) && a in t.silenced && Legal(t, call) && call != Remove(a)
    ensures Next(t, call).Fine?
    ensures var r := Next(t, call).table;
      Registered(r, a) && 0 <= r.chans[a].index < |r.pollfds| && r.pollfds[r.chans[a].index].fd == -1 - r.chans[a].fd
  {
    StepKeeps(t, call);
    var r := Next(t, call).table;
    assert Registered(r, a) && a in r.silenced by {
      if call.Set? {
        UpdatesInOrderIff(t, call.a);
        assert Indexed(t, t.chans[a].fd);
      }
      if call.Remove? {
        assert Indexed(t, t.chans[a].fd);
        assert Indexed(t, t.chans[call.a].fd);
      }
      hide Inv;
    }
    assert Indexed(r, r.chans[a].fd);
  }

  // ---- What poll is asked, from the calls alone ----

  /** A channel as its calls leave it: the events last asked for, whether it has a slot, and whether the slot's fd has
      been negated. */
  datatype Wish = Absent | Wish(fd: nat, events: nat, slot: bool, deaf: bool)

  function Wished(w: Wish, call: Action, a: Addr): Wish {
    match call
    case Open(c, fd) => if c == a then Wish(fd, 0, false, false) else w
    case Set(c, events) =>
      if c == a && w.Wish? then Wish(w.fd, events, true, w.slot && (w.deaf || events == 0)) else w
    case Remove(c) => if c == a && w.Wish? then w.(slot := false) else w
    case Poll(_) => w
  }

  function WishAfter(w: Wish, calls: seq<Action>, a: Addr): Wish
    decreases |calls|
  {
    if |calls| == 0 then w else WishAfter(Wished(w, calls[0], a), calls[1..], a)
  }

  predicate Meets(t: Table, a: Addr, w: Wish) {
    if w.Absent? then a !in t.chans
    else
      && a in t.chans && t.chans[a].fd == w.fd && t.chans[a].events == w.events
      && (Registered(t, a) <==> w.slot)
      && (w.slot ==> (a in t.silenced <==> w.deaf))
  }

  lemma MeetsStep(t: Table, call: Action, a: Addr, w: Wish)
    requires Inv(t) && Legal(t, call) && Meets(t, a, w)
    ensures Next(t, call).Fine? && Meets(Next(t, call).table, a, Wished(w, call, a))
  {
    StepKeeps(t, call);
    hide Inv;
  }

  lemma {:induction false} MeetsRun(t: Table, calls: seq<Action>, a: Addr, w: Wish)
    requires Inv(t) && LegalRun(t, calls) && Meets(t, a, w)
    ensures Run(t, calls).Fine? && Meets(Run(t, calls).table, a, WishAfter(w, calls, a))
    decreases |calls|
  {
    hide Inv, Next, Legal, Meets, Wished;
    if |calls| == 0 {
    } else {
      StepKeeps(t, calls[0]);
      MeetsStep(t, calls[0], a, w);
      MeetsRun(Next(t, calls[0]).table, calls[1..], a, Wished(w, calls[0], a));
    }
  }

  /** After any legal run a channel that its calls leave with a slot finds there the events it last asked for, under its
      own fd, or under the negated one if some call but the first asked for none. */
  lemma SlotFollowsCalls(calls: seq<Action>, a: Addr)
    requires LegalRun(EMPTY, calls)
    ensures Run(EMPTY, calls).Fine?
    ensures var t := Run(EMPTY, calls).table; var w := WishAfter(Absent, calls, a);
      && (Registered(t, a) <==> w.Wish? && w.slot)
      && (Registered(t, a) ==>
            && 0 <= t.chans[a].index < |t.pollfds|
            && t.pollfds[t.chans[a].index].fd == (if w.deaf then -1 - w.fd else w.fd)
            && t.pollfds[t.chans[a].index].events == w.events)
  {
    BijectionHolds(calls);
    MeetsRun(EMPTY, calls, a, Absent);
    var t := Run(EMPTY, calls).table;
    hide Run, LegalRun, WishAfter;
    if Registered(t, a) {
      assert Indexed(t, t.chans[a].fd);
    }
    hide Inv;
  }

  // ---- fillActiveChannels ----

  /** Channels of the slots from `i` on with something to report, in slot order. */
  function Hits(t: Table, i: nat): seq<Addr>
    requires i <= |t.pollfds|
    decreases |t.pollfds| - i
  {
    if i == |t.pollfds| then []
    else if t.pollfds[i].revents > 0 && t.pollfds[i].fd in t.channels then
      [t.channels[t.pollfds[i].fd]] + Hits(t, i + 1)
    else Hits(t, i + 1)
  }

  /** What poll(2) returns: the number of slots it filled in. */
  function NumEvents(pollfds: seq<PollFd>): nat {
    if |pollfds| == 0 then 0
    else (if pollfds[0].revents > 0 then 1 else 0) + NumEvents(pollfds[1..])
  }

  lemma {:induction false} HitsCount(t: Table, i: nat)
    requires Inv(t) && Sane(t.pollfds) && i <= |t.pollfds|
    ensures |Hits(t, i)| == NumEvents(t.pollfds[i..])
    decreases |t.pollfds| - i
  {
    if i < |t.pollfds| {
      HitsCount(t, i + 1);
      assert Placed(t, i);
      hide Inv;
      assert t.pollfds[i..][1..] == t.pollfds[i + 1..];
    }
  }

  /** Exactly the registered channels whose slot has something to report. */
  lemma {:induction false} HitsExact(t: Table, i: nat, a: Addr)
    requires Inv(t) && Sane(t.pollfds) && i <= |t.pollfds|
    ensures a in Hits(t, i) <==> Registered(t, a) && t.chans[a].index >= i && t.pollfds[t.chans[a].index].revents > 0
    decreases |t.pollfds| - i
  {
    if Registered(t, a) {
      assert Indexed(t, t.chans[a].fd);
    }
    if i < |t.pollfds| {
      HitsExact(t, i + 1, a);
      assert Placed(t, i);
      if t.pollfds[i].revents > 0 {
        assert Indexed(t, t.pollfds[i].fd);
        assert Hits(t, i) == [t.channels[t.pollfds[i].fd]] + Hits(t, i + 1);
      }
    }
  }

  predicate Distinct(s: seq<Addr>) {
    forall i, j :: 0 <= i < j < |s| ==> s[i] != s[j]
  }

  lemma {:induction false} HitsDistinct(t: Table, i: nat)
    requires Inv(t) && Sane(t.pollfds) && i <= |t.pollfds|
    ensures Distinct(Hits(t, i))
    decreases |t.pollfds| - i
  {
    if i < |t.pollfds| {
      HitsDistinct(t, i + 1);
      assert Placed(t, i);
      if t.pollfds[i].revents > 0 {
        HitsExact(t, i + 1, t.channels[t.pollfds[i].fd]);
        hide Inv;
        assert Hits(t, i) == [t.channels[t.pollfds[i].fd]] + Hits(t, i + 1);
      }
    }
  }

  /** The first `n` at most. */
  function Take(s: seq<Addr>, n: nat): seq<Addr> {
    if n < |s| then s[..n] else s
  }

  /** What the scan meets at slot `i`. */
  lemma HitAt(t: Table, i: nat)
    requires Inv(t) && Sane(t.pollfds) && i < |t.pollfds| && t.pollfds[i].revents > 0
    ensures var f := t.pollfds[i].fd;
      f in t.channels && t.channels[f] in t.chans && t.chans[t.channels[f]].index == i && t.chans[t.channels[f]].fd == f
    ensures Hits(t, i) == [t.channels[t.pollfds[i].fd]] + Hits(t, i + 1)
  {
    assert Placed(t, i);
    assert Indexed(t, t.pollfds[i].fd);
    hide Inv;
  }

  lemma MissAt(t: Table, i: nat)
    requires i < |t.pollfds| && t.pollfds[i].revents <= 0
    ensures Hits(t, i) == Hits(t, i + 1)
  {
  }

  lemma TakeOne(a: Addr, s: seq<Addr>, n: nat)
    requires n > 0
    ensures Take([a] + s, n) == [a] + Take(s, n - 1)
  {
  }

  /** A registered channel whose slot has something to report. */
  predicate HasEvents(t: Table, a: Addr) {
    && Registered(t, a) && 0 <= t.chans[a].index < |t.pollfds|
    && t.pollfds[t.chans[a].index].revents > 0
  }

  /** With the count poll(2) returned, stopping after that many finds misses no channel and repeats none. */
  lemma FillsExactly(t: Table, active: seq<Addr>)
    requires Inv(t) && Sane(t.pollfds)
    requires active == Take(Hits(t, 0), NumEvents(t.pollfds))
    ensures |active| == NumEvents(t.pollfds) && Distinct(active)
    ensures forall a :: a in active <==> HasEvents(t, a)
  {
    assert t.pollfds[0..] == t.pollfds;
    HitsCount(t, 0);
    HitsDistinct(t, 0);
    assert active == Hits(t, 0);
    forall a
      ensures a in active <==> HasEvents(t, a)
    {
      HitsExact(t, 0, a);
      if Registered(t, a) {
        assert Indexed(t, t.chans[a].fd);
      }
    }
  }

  /** After any legal sequence of calls, fillActiveChannels with the count poll(2) returned finds exactly the
      registered channels with something to report, each once. */
  lemma FillsAfterRun(calls: seq<Action>, active: seq<Addr>)
    requires LegalRun(EMPTY, calls) && Run(EMPTY, calls).Fine?
    requires var t := Run(EMPTY, calls).table; active == Take(Hits(t, 0), NumEvents(t.pollfds))
    ensures var t := Run(EMPTY, calls).table;
      && |active| == NumEvents(t.pollfds) && Distinct(active)
      && forall a :: a in active <==> HasEvents(t, a)
  {
    RunKeeps(EMPTY, calls);
    FillsExactly(Run(EMPTY, calls).table, active);
    hide Run, LegalRun, Hits, NumEvents, Take;
  }
}
