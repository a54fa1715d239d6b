/** net/Poller/EPollPoller.cpp: channels registered with the kernel through epoll_ctl, and what the poller believes
    about that in each channel's index. */
module EPollPollers {
  import opened ChannelIndexes

  /** A channel's address. */
  type Addr = nat

  datatype Chan = Chan(fd: nat, events: nat, index: Index)

  /** What the kernel holds for an fd: the mask, and the pointer it gives back. */
  datatype Entry = Entry(mask: nat, data: Addr)

  /** `chans` are all the channels of the program, `channels` the poller's map, `kernel` the epoll set. */
  datatype Poller = Poller(chans: map<Addr, Chan>, channels: map<nat, Addr>, kernel: map<nat, Entry>)

  // ---- The kernel ----

  datatype Op = ADD | MOD | DEL

  /** epoll_ctl refuses to add what it has, and to change or delete what it has not. */
  predicate CtlOk(kernel: map<nat, Entry>, op: Op, fd: nat) {
    op == ADD <==> fd !in kernel
  }

  /** EPollPoller::update; a refusal is logged, and nothing changes. */
  function Ctl(kernel: map<nat, Entry>, op: Op, fd: nat, e: Entry): map<nat, Entry> {
    if !CtlOk(kernel, op, fd) then kernel
    else if op == DEL then kernel - {fd}
    else kernel[fd := e]
  }

  // ---- updateChannel and removeChannel ----

  predicate Registered(p: Poller, a: Addr) {
    a in p.chans && p.chans[a].fd in p.channels && p.channels[p.chans[a].fd] == a
  }

  /** The asserts of updateChannel. */
  predicate UpdateOk(p: Poller, a: Addr)
    requires a in p.chans
  {
    if p.chans[a].index == New then p.chans[a].fd !in p.channels else Registered(p, a)
  }

  function UpdateOp(k: Chan): Op {
    if k.index != Added then ADD else if k.events == 0 then DEL else MOD
  }

  function Updated(p: Poller, a: Addr): Poller
    requires a in p.chans
  {
    var k := p.chans[a];
    p.(chans := p.chans[a := k.(index := if k.index == Added && k.events == 0 then Deleted else Added)],
       channels := if k.index == New then p.channels[k.fd := a] else p.channels,
       kernel := Ctl(p.kernel, UpdateOp(k), k.fd, Entry(k.events, a)))
  }

  /** The asserts of removeChannel. */
  predicate RemoveOk(p: Poller, a: Addr)
    requires a in p.chans
  {
    Registered(p, a) && p.chans[a].events == 0 && p.chans[a].index != New
  }

  function Removed(p: Poller, a: Addr): Poller
    requires a in p.chans
  {
    var k := p.chans[a];
    p.(chans := p.chans[a := k.(index := New)],
       channels := p.channels - {k.fd},
       kernel := if k.index == Added then Ctl(p.kernel, DEL, k.fd, Entry(k.events, a)) else p.kernel)
  }

  function WithEvents(p: Poller, a: Addr, events: nat): Poller
    requires a in p.chans
  {
    p.(chans := p.chans[a := p.chans[a].(events := events)])
  }

  // ---- Agreement ----

  /** What the poller and the kernel say about channel `a`, by its index. */
  ghost predicate Agrees(p: Poller, a: Addr)
    requires a in p.chans
  {
    var k := p.chans[a];
    && (k.index == New <==> !Registered(p, a))
    && (k.index == Added ==> k.fd in p.kernel && p.kernel[k.fd] == Entry(k.events, a))
    && (k.index == Deleted ==> k.events == 0 && k.fd !in p.kernel)
  }

  ghost predicate Inv(p: Poller) {
    && (forall a :: a in p.chans ==> Agrees(p, a))
    && (forall f :: f in p.channels ==> p.channels[f] in p.chans && p.chans[p.channels[f]].fd == f)
    && (forall f :: f in p.kernel ==> f in p.channels)
  }

  /** The kernel watches exactly the channels marked kAdded, with their own masks and their own pointers. */
  lemma KernelIs(p: Poller, f: nat, e: Entry)
    requires Inv(p)
    ensures (f in p.kernel && p.kernel[f] == e) <==>
            exists a :: a in p.chans && p.chans[a].index == Added && p.chans[a].fd == f &&
                        e == Entry(p.chans[a].events, a)
  {
    if f in p.kernel && p.kernel[f] == e {
      var a := p.channels[f];
      assert Registered(p, a) && Agrees(p, a);
    }
  }

  // ---- Steps ----

  datatype Action =
    | Open(a: Addr, fd: nat)
    | Set(a: Addr, events: nat)
    | Remove(a: Addr)

  /** A new channel needs an fd no registered channel has; only a known one without events may be removed. */
  predicate Legal(p: Poller, a: Action) {
    match a
    case Open(c, _) => c !in p.chans
    case Set(c, _) => c in p.chans && (p.chans[c].index == New ==> p.chans[c].fd !in p.channels)
    case Remove(c) => c in p.chans && p.chans[c].index != New && p.chans[c].events == 0
  }

  datatype Outcome = Fine(poller: Poller) | AssertFails | CtlFails

  function Next(p: Poller, a: Action): Outcome
    requires Legal(p, a)
  {
    match a
    case Open(c, fd) => Fine(p.(chans := p.chans[c := Chan(fd, 0, New)]))
    case Set(c, events) =>
      var s := WithEvents(p, c, events);
      if !UpdateOk(s, c) then AssertFails
      else if !CtlOk(s.kernel, UpdateOp(s.chans[c]), s.chans[c].fd) then CtlFails
      else Fine(Updated(s, c))
    case Remove(c) =>
      if !RemoveOk(p, c) then AssertFails
      else if p.chans[c].index == Added && !CtlOk(p.kernel, DEL, p.chans[c].fd) then CtlFails
      else Fine(Removed(p, c))
  }

  /** The asserts hold exactly for the calls a caller may make. */
  lemma AssertsHoldIff(p: Poller, a: Addr, events: nat)
    requires Inv(p) && a in p.chans
    ensures UpdateOk(WithEvents(p, a, events), a) <==> Legal(p, Set(a, events))
    ensures RemoveOk(p, a) <==> Legal(p, Remove(a))
  {
    assert Agrees(p, a);
  }

  lemma SetStep(p: Poller, a: Addr, events: nat)
    requires Inv(p) && Legal(p, Set(a, events))
    ensures Next(p, Set(a, events)).Fine? && Inv(Next(p, Set(a, events)).poller)
  {
    assert Agrees(p, a);
    var k := p.chans[a];
    if k.index == New && k.fd in p.kernel {
      assert false;
    }
    var r := Next(p, Set(a, events)).poller;
    forall b | b in r.chans
      ensures Agrees(r, b)
    {
      assert Agrees(p, b);
    }
  }

  lemma RemoveStep(p: Poller, a: Addr)
    requires Inv(p) && Legal(p, Remove(a))
    ensures Next(p, Remove(a)).Fine? && Inv(Next(p, Remove(a)).poller)
  {
    assert Agrees(p, a);
    var r := Next(p, Remove(a)).poller;
    forall b | b in r.chans
      ensures Agrees(r, b)
    {
      assert Agrees(p, b);
    }
  }

  lemma OpenStep(p: Poller, a: Addr, fd: nat)
    requires Inv(p) && Legal(p, Open(a, fd))
    ensures Inv(Next(p, Open(a, fd)).poller)
  {
    var r := Next(p, Open(a, fd)).poller;
    forall b | b in r.chans
      ensures Agrees(r, b)
    {
      if b != a {
        assert Agrees(p, b);
      }
    }
  }

  /** A legal call fails no assert, is not refused by the kernel, and keeps the two in agreement. */
  lemma StepKeeps(p: Poller, a: Action)
    requires Inv(p) && Legal(p, a)
    ensures Next(p, a).Fine? && Inv(Next(p, a).poller)
  {
    hide Inv;
    match a
    case Open(c, fd) => OpenStep(p, c, fd);
    case Set(c, events) => SetStep(p, c, events);
    case Remove(c) => RemoveStep(p, c);
  }

  // ---- Runs ----

  const EMPTY := Poller(map[], map[], map[])

  ghost predicate LegalRun(p: Poller, calls: seq<Action>)
    decreases |calls|
  {
    |calls| == 0 ||
    (Legal(p, calls[0]) && (Next(p, calls[0]).Fine? ==> LegalRun(Next(p, calls[0]).poller, calls[1..])))
  }

  function Run(p: Poller, calls: seq<Action>): Outcome
    requires LegalRun(p, calls)
    decreases |calls|
  {
    if |calls| == 0 then Fine(p)
    else match Next(p, calls[0])
      case Fine(s) => Run(s, calls[1..])
      case failure => failure
  }

  lemma {:induction false} RunKeeps(p: Poller, calls: seq<Action>)
    requires Inv(p) && LegalRun(p, calls)
    ensures Run(p, calls).Fine? && Inv(Run(p, calls).poller)
    decreases |calls|
  {
    hide Inv, Next, Legal;
    if |calls| == 0 {
    } else {
      StepKeeps(p, calls[0]);
      RunKeeps(Next(p, calls[0]).poller, calls[1..]);
    }
  }

  /** Over every legal run: ADD is never asked of an fd the kernel has, MOD and DEL never of one it has not, no
      assert fails, and the kernel's set is what the indexes say. */
  lemma RegistrationAgrees(calls: seq<Action>)
    requires LegalRun(EMPTY, calls)
    ensures Run(EMPTY, calls).Fine? && Inv(Run(EMPTY, calls).poller)
  {
    RunKeeps(EMPTY, calls);
  }

  // ---- What the kernel holds, from the calls alone ----

  /** A channel as its calls leave it: the events last asked for, whether updateChannel has seen it since it was opened
      or removed, and whether it is watched. */
  datatype Wish = Absent | Wish(fd: nat, events: nat, known: bool, watched: bool)

  /** Asking for events gets a channel watched; asking for none turns a watched one off, and any other on. */
  function Wished(w: Wish, call: Action, a: Addr): Wish {
    match call
    case Open(c, fd) => if c == a then Wish(fd, 0, false, false) else w
    case Set(c, events) =>
      if c == a && w.Wish? then Wish(w.fd, events, true, events != 0 || !w.watched) else w
    case Remove(c) => if c == a && w.Wish? then Wish(w.fd, w.events, false, false) else w
  }

  function WishAfter(w: Wish, calls: seq<Action>, a: Addr): Wish
    decreases |calls|
  {
    if |calls| == 0 then w else WishAfter(Wished(w, calls[0], a), calls[1..], a)
  }

  predicate Meets(p: Poller, a: Addr, w: Wish) {
    if w.Absent? then a !in p.chans
    else
      && a in p.chans
      && p.chans[a] == Chan(w.fd, w.events, if !w.known then New else if w.watched then Added else Deleted)
      && (w.watched ==> w.known)
  }

  lemma MeetsStep(p: Poller, call: Action, a: Addr, w: Wish)
    requires Inv(p) && Legal(p, call) && Meets(p, a, w)
    ensures Next(p, call).Fine? && Meets(Next(p, call).poller, a, Wished(w, call, a))
  {
    StepKeeps(p, call);
    hide Inv;
  }

  lemma {:induction false} MeetsRun(p: Poller, calls: seq<Action>, a: Addr, w: Wish)
    requires Inv(p) && LegalRun(p, calls) && Meets(p, a, w)
    ensures Run(p, calls).Fine? && Meets(Run(p, calls).poller, a, WishAfter(w, calls, a))
    decreases |calls|
  {
    hide Inv, Next, Legal, Meets, Wished;
    if |calls| == 0 {
    } else {
      StepKeeps(p, calls[0]);
      MeetsStep(p, calls[0], a, w);
      MeetsRun(Next(p, calls[0]).poller, calls[1..], a, Wished(w, calls[0], a));
    }
  }

  /** After any legal run the kernel holds an entry with a mask and a pointer if and only if the calls on that channel
      leave it watched, with those events and on that fd. */
  lemma KernelFollowsCalls(calls: seq<Action>, f: nat, mask: nat, a: Addr)
    requires LegalRun(EMPTY, calls)
    ensures Run(EMPTY, calls).Fine?
    ensures var p := Run(EMPTY, calls).poller; var w := WishAfter(Absent, calls, a);
      f in p.kernel && p.kernel[f] == Entry(mask, a) <==> w.Wish? && w.watched && w.fd == f && w.events == mask
  {
    RegistrationAgrees(calls);
    MeetsRun(EMPTY, calls, a, Absent);
    KernelIs(Run(EMPTY, calls).poller, f, Entry(mask, a));
    hide Inv, Run, LegalRun, WishAfter;
  }

  /** disableAll takes a channel out of the kernel's set if and only if it was in: an unwatched or new channel is
      put in, with an empty mask, and can then report errors and hang-ups. */
  lemma DisableUnwatchesIff(p: Poller, a: Addr)
    requires Inv(p) && Legal(p, Set(a, 0))
    ensures Next(p, Set(a, 0)).Fine?
    ensures p.chans[a].fd !in Next(p, Set(a, 0)).poller.kernel <==> p.chans[a].index == Added
  {
    StepKeeps(p, Set(a, 0));
    assert Agrees(p, a);
    assert Agrees(Next(p, Set(a, 0)).poller, a);
    hide Inv;
  }

  // ---- fillActiveChannels ----

  /** An entry of the epoll set carries the pointer `a`: what epoll_wait can give back. */
  predicate Watched(p: Poller, a: Addr) {
    exists f: nat :: f in p.kernel && p.kernel[f].data == a
  }

  /** Whatever the kernel gives back is a channel the poller knows, so the debug asserts hold. */
  lemma WatchedIsRegistered(p: Poller, a: Addr)
    requires Inv(p) && Watched(p, a)
    ensures Registered(p, a) && p.chans[a].index == Added
  {
    var f: nat :| f in p.kernel && p.kernel[f].data == a;
    assert Registered(p, p.channels[f]) && Agrees(p, p.channels[f]);
  }
}
