/** net/TimerQueue.cpp: timers kept in two ordered sets over one one-shot kernel timer. */
module TimerQueues {

  /** Where a Timer object lives. Addresses are reused once their timer has been deleted. */
  type Addr = nat

  /** The pointer value that getExpired searches with; no object has it. */
  const UINTPTR_MAX: nat := 0xffff_ffff_ffff_ffff

  /** A Timer: microseconds of expiration and interval (0: one shot), and its serial number. */
  datatype Timer = Timer(expiration: int, interval: nat, sequence: nat)

  /** An element of timers_. */
  datatype Entry = Entry(when: int, timer: Addr)

  /** An element of activeTimers_ and cancelingTimers_, and the contents of a TimerId. */
  datatype Key = Key(timer: Addr, sequence: nat)

  /** The timerfd: `deadline` is when it fires or fired, `at` when it was last set. */
  datatype KernelTimer = Disarmed | Armed(deadline: int, at: int)

  // ---- std::set<Entry> as the ascending sequence of its elements ----

  predicate Less(a: Entry, b: Entry) {
    a.when < b.when || (a.when == b.when && a.timer < b.timer)
  }

  predicate Sorted(ts: seq<Entry>) {
    forall i, j :: 0 <= i < j < |ts| ==> Less(ts[i], ts[j])
  }

  /** lower_bound: how many elements lie below `e`. */
  function Position(ts: seq<Entry>, e: Entry): (p: nat)
    ensures p <= |ts|
    ensures forall k :: 0 <= k < p ==> Less(ts[k], e)
    ensures p < |ts| ==> !Less(ts[p], e)
  {
    if |ts| == 0 || !Less(ts[0], e) then 0 else 1 + Position(ts[1..], e)
  }

  function Inserted(ts: seq<Entry>, e: Entry): seq<Entry> {
    var p := Position(ts, e);
    ts[..p] + [e] + ts[p..]
  }

  function Erased(ts: seq<Entry>, e: Entry): seq<Entry> {
    var p := Position(ts, e);
    if p < |ts| && ts[p] == e then ts[..p] + ts[p + 1..] else ts
  }

  lemma InsertedElements(ts: seq<Entry>, e: Entry)
    ensures forall x :: x in Inserted(ts, e) <==> x in ts || x == e
    ensures |Inserted(ts, e)| == |ts| + 1
    ensures Inserted(ts, e)[0] == if |ts| == 0 || !Less(ts[0], e) then e else ts[0]
  {
    var p := Position(ts, e);
    assert ts == ts[..p] + ts[p..];
  }

  lemma InsertedSorted(ts: seq<Entry>, e: Entry)
    requires Sorted(ts) && e !in ts
    ensures Sorted(Inserted(ts, e))
  {
    var p := Position(ts, e);
    var r := Inserted(ts, e);
    assert forall k :: 0 <= k < p ==> r[k] == ts[k] && Less(r[k], e);
    forall k | p < k < |r|
      ensures r[k] == ts[k - 1] && Less(e, r[k])
    {
      assert ts[p] in ts && (p < k - 1 ==> Less(ts[p], ts[k - 1]));
    }
  }

  lemma PositionOf(ts: seq<Entry>, i: nat)
    requires Sorted(ts) && i < |ts|
    ensures Position(ts, ts[i]) == i
  {
  }

  lemma RemovedAt(ts: seq<Entry>, p: nat)
    requires Sorted(ts) && p < |ts|
    ensures var r := ts[..p] + ts[p + 1..];
      && Sorted(r)
      && |r| == |ts| - 1
      && (|ts| > 1 ==> r[0] == if p == 0 then ts[1] else ts[0])
  {
    var r := ts[..p] + ts[p + 1..];
    assert forall k :: 0 <= k < |r| ==> r[k] == ts[if k < p then k else k + 1];
    hide Less;
  }

  lemma RemovedElements(ts: seq<Entry>, p: nat)
    requires Sorted(ts) && p < |ts|
    ensures var r := ts[..p] + ts[p + 1..];
      forall x :: x in r <==> x in ts && x != ts[p]
  {
    assert ts == ts[..p] + [ts[p]] + ts[p + 1..];
    forall k | 0 <= k < |ts| && k != p
      ensures ts[k] != ts[p]
    {
      assert if k < p then Less(ts[k], ts[p]) else Less(ts[p], ts[k]);
    }
  }

  lemma ErasedIs(ts: seq<Entry>, e: Entry)
    requires Sorted(ts) && e in ts
    ensures Sorted(Erased(ts, e))
    ensures forall x :: x in Erased(ts, e) <==> x in ts && x != e
    ensures |Erased(ts, e)| == |ts| - 1
    ensures |ts| > 1 ==> Erased(ts, e)[0] == if e == ts[0] then ts[1] else ts[0]
  {
    var p :| 0 <= p < |ts| && ts[p] == e;
    PositionOf(ts, p);
    RemovedAt(ts, p);
    RemovedElements(ts, p);
    assert Erased(ts, e) == ts[..p] + ts[p + 1..];
    assert p > 0 ==> Less(ts[0], ts[p]);
    hide Position, Sorted;
  }

  // ---- The queue ----

  /** `heap` holds the live timers and `created` counts them all; `transit` are those whose addTimerInLoop has
      not run. `batch` are the expired timers of the running handleRead, which started at `now` and has called
      back the first `next` of them. `ran` lists the sequence numbers of the callbacks in order, `freed` counts
      deletions. */
  datatype Queue = Queue(
    heap: map<Addr, Timer>, created: nat, transit: set<Addr>,
    timers: seq<Entry>, active: set<Key>,
    calling: bool, canceling: set<Key>,
    batch: seq<Entry>, next: nat, now: int,
    kernel: KernelTimer, ran: seq<nat>, freed: multiset<nat>)

  datatype Action =
    | Create(timer: Addr, when: int, interval: nat)
    | Add(timer: Addr, clock: int)
    | Cancel(id: Key)
    | Fire(clock: int)
    | Call
    | Finish(clock: int)

  const EMPTY := Queue(map[], 0, {}, [], {}, false, {}, [], 0, 0, Disarmed, [], multiset{})

  function KeyOf(q: Queue, a: Addr): Key
    requires a in q.heap
  {
    Key(a, q.heap[a].sequence)
  }

  function Addrs(es: seq<Entry>): set<Addr> {
    set e | e in es :: e.timer
  }

  predicate Queued(q: Queue, a: Addr) {
    a in q.heap && Entry(q.heap[a].expiration, a) in q.timers
  }

  predicate Expired(es: seq<Entry>, k: nat, now: int) {
    && k <= |es|
    && (forall i :: 0 <= i < k ==> es[i].when <= now)
    && (forall i :: k <= i < |es| ==> now < es[i].when)
  }

  // ---- Invariants ----

  /** timers_ is ordered, and holds live timers under their current expiration. */
  ghost predicate Keyed(q: Queue) {
    && Sorted(q.timers)
    && (forall e :: e in q.timers ==> e.timer in q.heap && q.heap[e.timer].expiration == e.when)
  }

  /** activeTimers_ holds the same timers by sequence number. */
  ghost predicate Agree(q: Queue) {
    forall k :: k in q.active <==> Queued(q, k.timer) && q.heap[k.timer].sequence == k.sequence
  }

  /** Every live timer has one owner: a pending add, the sets, or the running batch. */
  ghost predicate Owned(q: Queue) {
    && (forall a :: a in q.transit ==> a in q.heap && !Queued(q, a) && a !in Addrs(q.batch))
    && (forall a :: a in Addrs(q.batch) ==> a in q.heap && !Queued(q, a))
    && (forall a :: a in q.heap ==> a in q.transit || Queued(q, a) || a in Addrs(q.batch))
    && (forall i, j :: 0 <= i < j < |q.batch| ==> q.batch[i].timer != q.batch[j].timer)
    && (forall a :: a in q.heap ==> a < UINTPTR_MAX)
  }

  ghost predicate Live(q: Queue, s: nat) {
    exists a :: a in q.heap && q.heap[a].sequence == s
  }

  /** Sequence numbers are never reused; every timer ever created is live, or was deleted exactly once. */
  ghost predicate Numbered(q: Queue) {
    && (forall a, b :: a in q.heap && b in q.heap && q.heap[a].sequence == q.heap[b].sequence ==> a == b)
    && (forall a :: a in q.heap ==> 1 <= q.heap[a].sequence <= q.created)
    && (forall s: nat :: q.freed[s] == if 1 <= s <= q.created && !Live(q, s) then 1 else 0)
  }

  ghost predicate Consistent(q: Queue) {
    Keyed(q) && Agree(q) && Owned(q) && Numbered(q)
  }

  ghost predicate Inv(q: Queue) {
    && Consistent(q)
    && q.next <= |q.batch|
    && (!q.calling ==> q.batch == [])
  }

  // ---- The members of TimerQueue on this state ----

  /** TimerQueue::insert: both sets gain the timer under its current expiration. */
  function Insert(q: Queue, a: Addr): Queue
    requires a in q.heap
  {
    q.(timers := Inserted(q.timers, Entry(q.heap[a].expiration, a)), active := q.active + {KeyOf(q, a)})
  }

  predicate EarliestChanged(q: Queue, a: Addr)
    requires a in q.heap
  {
    |q.timers| == 0 || q.heap[a].expiration < q.timers[0].when
  }

  /** howMuchTimeFromNow: never less than 100 microseconds ahead. */
  function Delay(when: int, clock: int): int {
    if when - clock < 100 then 100 else when - clock
  }

  function SetTimerfd(q: Queue, when: int, clock: int): Queue {
    q.(kernel := Armed(clock + Delay(when, clock), clock))
  }

  function Deleted(q: Queue, a: Addr): Queue
    requires a in q.heap
  {
    q.(heap := q.heap - {a}, freed := q.freed + multiset{q.heap[a].sequence})
  }

  /** How many elements of timers_ getExpired takes. */
  function ExpiredCount(q: Queue, now: int): nat {
    Position(q.timers, Entry(now, UINTPTR_MAX))
  }

  /** handleRead up to its callbacks. Reading disarms a timerfd that has fired, and no other. */
  function Fired(q: Queue, now: int): Queue {
    var k := ExpiredCount(q, now);
    var expired := q.timers[..k];
    q.(kernel := if q.kernel.Armed? && q.kernel.deadline <= now then Disarmed else q.kernel,
       timers := q.timers[k..],
       active := (set x | x in q.active && x.timer !in Addrs(expired)),
       calling := true, canceling := {}, batch := expired, next := 0, now := now)
  }

  /** One round of the loop in reset, on the first timer left in the batch. */
  function ResetFirst(q: Queue): Queue
    requires |q.batch| > 0 && q.batch[0].timer in q.heap
  {
    var a := q.batch[0].timer;
    var t := q.heap[a];
    var left := q.(batch := q.batch[1..]);
    if t.interval > 0 && KeyOf(q, a) !in q.canceling then
      Insert(left.(heap := q.heap[a := t.(expiration := q.now + t.interval)]), a)
    else Deleted(left, a)
  }

  function ResetAll(q: Queue): (r: Queue)
    requires Consistent(q)
    ensures Consistent(r) && r.batch == []
    decreases |q.batch|
  {
    if |q.batch| == 0 then q
    else
      BatchHead(q);
      ResetFirstConsistent(q);
      ResetAll(ResetFirst(q))
  }

  /** reset: the batch dealt with, and the timerfd set for the earliest timer left. */
  function Afterwards(q: Queue, clock: int): Queue
    requires Consistent(q)
  {
    var r := ResetAll(q);
    if |r.timers| > 0 && r.timers[0].when > 0 then SetTimerfd(r, r.timers[0].when, clock) else r
  }

  /** The end of handleRead. */
  function Finished(q: Queue, clock: int): Queue
    requires Consistent(q.(calling := false, next := 0))
  {
    Afterwards(q.(calling := false, next := 0), clock)
  }

  function Created(q: Queue, a: Addr, when: int, interval: nat): Queue {
    q.(heap := q.heap[a := Timer(when, interval, q.created + 1)], created := q.created + 1, transit := q.transit + {a})
  }

  /** addTimerInLoop. */
  function Added(q: Queue, a: Addr, clock: int): Queue
    requires a in q.heap
  {
    var r := Insert(q.(transit := q.transit - {a}), a);
    if EarliestChanged(q, a) then SetTimerfd(r, q.heap[a].expiration, clock) else r
  }

  /** cancelInLoop. */
  function Cancelled(q: Queue, id: Key): Queue
    requires id in q.active ==> id.timer in q.heap
  {
    if id in q.active then
      var e := Entry(q.heap[id.timer].expiration, id.timer);
      Deleted(q.(timers := Erased(q.timers, e), active := q.active - {id}), id.timer)
    else if q.calling then q.(canceling := q.canceling + {id})
    else q
  }

  /** The next callback of the batch runs. */
  function Called(q: Queue): Queue
    requires q.next < |q.batch| && q.batch[q.next].timer in q.heap
  {
    q.(ran := q.ran + [q.heap[q.batch[q.next].timer].sequence], next := q.next + 1)
  }

  lemma BatchMember(q: Queue, i: nat)
    requires Owned(q) && i < |q.batch|
    ensures q.batch[i].timer in Addrs(q.batch) && q.batch[i].timer in q.heap
  {
    assert q.batch[i] in q.batch;
  }

  lemma BatchHead(q: Queue)
    requires Owned(q) && |q.batch| > 0
    ensures q.batch[0].timer in q.heap && !Queued(q, q.batch[0].timer) && q.batch[0].timer !in q.transit
    ensures Addrs(q.batch) == Addrs(q.batch[1..]) + {q.batch[0].timer}
    ensures q.batch[0].timer !in Addrs(q.batch[1..])
  {
    BatchMember(q, 0);
    assert q.batch == [q.batch[0]] + q.batch[1..];
    assert forall e :: e in q.batch <==> e == q.batch[0] || e in q.batch[1..];
    forall e | e in q.batch[1..]
      ensures e.timer != q.batch[0].timer
    {
      var j :| 0 <= j < |q.batch[1..]| && q.batch[1..][j] == e;
      assert q.batch[j + 1] == e;
    }
  }

  // ---- Inserting and deleting keep the invariants ----

  /** Inserting a timer that nothing queues. */
  lemma InsertKeeps(q: Queue, a: Addr)
    requires Keyed(q) && Agree(q) && a in q.heap && !Queued(q, a)
    ensures var r := Insert(q, a);
      && Keyed(r) && Agree(r)
      && (forall b :: Queued(r, b) <==> Queued(q, b) || b == a)
      && |r.timers| > 0
      && r.timers[0].when == (if EarliestChanged(q, a) then q.heap[a].expiration else q.timers[0].when)
  {
    InsertedElements(q.timers, Entry(q.heap[a].expiration, a));
    InsertedSorted(q.timers, Entry(q.heap[a].expiration, a));
  }

  /** Deleting a timer that neither set holds. */
  lemma DeleteKeeps(q: Queue, a: Addr)
    requires Keyed(q) && Agree(q) && Numbered(q) && a in q.heap && !Queued(q, a)
    ensures var r := Deleted(q, a);
      && Keyed(r) && Agree(r) && Numbered(r)
      && (forall b :: Queued(r, b) <==> Queued(q, b))
  {
    var r := Deleted(q, a);
    forall b
      ensures Queued(r, b) <==> Queued(q, b)
    {
    }
    DeleteKeepsNumbers(q, a);
  }

  lemma DeleteKeepsNumbers(q: Queue, a: Addr)
    requires Numbered(q) && a in q.heap
    ensures Numbered(Deleted(q, a))
  {
    var r := Deleted(q, a);
    forall s: nat
      ensures Live(r, s) <==> Live(q, s) && s != q.heap[a].sequence
    {
      if Live(q, s) && s != q.heap[a].sequence {
        var b :| b in q.heap && q.heap[b].sequence == s;
        assert b in r.heap;
      }
    }
    hide Live;
    assert Live(q, q.heap[a].sequence);
  }

  /** A timer outside both sets may change its expiration. */
  lemma RestartKeeps(q: Queue, a: Addr, t: Timer)
    requires Keyed(q) && Agree(q) && Numbered(q) && a in q.heap && !Queued(q, a)
    requires t.sequence == q.heap[a].sequence
    ensures var r := q.(heap := q.heap[a := t]);
      && Keyed(r) && Agree(r) && Numbered(r)
      && (forall b :: Queued(r, b) <==> Queued(q, b))
  {
    var r := q.(heap := q.heap[a := t]);
    forall b
      ensures Queued(r, b) <==> Queued(q, b)
    {
    }
    RestartKeepsNumbers(q, a, t);
  }

  lemma RestartKeepsNumbers(q: Queue, a: Addr, t: Timer)
    requires Numbered(q) && a in q.heap && t.sequence == q.heap[a].sequence
    ensures Numbered(q.(heap := q.heap[a := t]))
  {
    var r := q.(heap := q.heap[a := t]);
    forall s: nat
      ensures Live(r, s) <==> Live(q, s)
    {
      if Live(q, s) {
        var b :| b in q.heap && q.heap[b].sequence == s;
        assert b in r.heap && r.heap[b].sequence == s;
      }
      if Live(r, s) {
        var b :| b in r.heap && r.heap[b].sequence == s;
        assert b in q.heap && q.heap[b].sequence == s;
      }
    }
    hide Live;
  }

  /** The first timer of the batch leaves it, for the sets or for good. */
  lemma BatchHandsOver(q: Queue, r: Queue)
    requires Owned(q) && |q.batch| > 0 && r.batch == q.batch[1..] && r.transit == q.transit
    requires var a := q.batch[0].timer;
      || (r.heap.Keys == q.heap.Keys && forall b :: Queued(r, b) <==> Queued(q, b) || b == a)
      || (r.heap.Keys == q.heap.Keys - {a} && forall b :: Queued(r, b) <==> Queued(q, b))
    ensures Owned(r)
  {
    hide Queued;
    BatchHead(q);
    assert forall b :: b in r.heap <==> b in r.heap.Keys;
    assert forall b :: b in q.heap <==> b in q.heap.Keys;
    hide Addrs;
  }

  lemma ResetFirstConsistent(q: Queue)
    requires Consistent(q) && |q.batch| > 0 && q.batch[0].timer in q.heap
    ensures Consistent(ResetFirst(q))
  {
    hide Keyed, Agree, Owned, Numbered, Queued;
    var a := q.batch[0].timer;
    var t := q.heap[a];
    BatchHead(q);
    var left := q.(batch := q.batch[1..]);
    SameSets(q, left);
    if t.interval > 0 && KeyOf(q, a) !in q.canceling {
      var u := t.(expiration := q.now + t.interval);
      var w := left.(heap := q.heap[a := u]);
      RestartKeeps(left, a, u);
      InsertKeeps(w, a);
      SameNumbers(w, Insert(w, a));
      assert w.heap.Keys == q.heap.Keys;
    } else {
      DeleteKeeps(left, a);
    }
    BatchHandsOver(q, ResetFirst(q));
  }

  lemma SameNumbers(q: Queue, r: Queue)
    requires r.heap == q.heap && r.created == q.created && r.freed == q.freed
    ensures Numbered(q) <==> Numbered(r)
    ensures forall s :: Live(q, s) <==> Live(r, s)
  {
  }

  /** Keyed, Agree, Numbered and Queued do not look at the batch and the flags. */
  lemma SameSets(q: Queue, r: Queue)
    requires r.heap == q.heap && r.created == q.created && r.freed == q.freed
    requires r.timers == q.timers && r.active == q.active
    ensures (Keyed(q) <==> Keyed(r)) && (Agree(q) <==> Agree(r)) && (Numbered(q) <==> Numbered(r))
    ensures forall b :: Queued(q, b) <==> Queued(r, b)
  {
    SameNumbers(q, r);
  }

  // ---- Every action keeps the invariants ----

  predicate Enabled(q: Queue, act: Action) {
    match act
    case Create(a, _, _) => a !in q.heap && a < UINTPTR_MAX
    case Add(a, _) => a in q.transit
    case Cancel(_) => true
    case Fire(_) => !q.calling
    case Call => q.calling && q.next < |q.batch|
    case Finish(_) => q.calling && q.next == |q.batch|
  }

  lemma CreateKeepsNumbers(q: Queue, a: Addr, when: int, interval: nat)
    requires Numbered(q) && a !in q.heap
    ensures Numbered(Created(q, a, when, interval))
  {
    var r := Created(q, a, when, interval);
    forall s: nat
      ensures Live(r, s) <==> Live(q, s) || s == q.created + 1
    {
      if Live(q, s) {
        var b :| b in q.heap && q.heap[b].sequence == s;
        assert b in r.heap && r.heap[b].sequence == s;
      }
      if s == q.created + 1 {
        assert a in r.heap && r.heap[a].sequence == s;
      }
    }
    hide Live;
  }

  lemma CreateKeeps(q: Queue, a: Addr, when: int, interval: nat)
    requires Inv(q) && a !in q.heap && a < UINTPTR_MAX
    ensures Inv(Created(q, a, when, interval))
  {
    var r := Created(q, a, when, interval);
    CreateKeepsNumbers(q, a, when, interval);
    hide Numbered;
    forall b
      ensures Queued(r, b) <==> Queued(q, b)
    {
    }
    CreateKeepsOwners(q, r, a);
    hide Owned;
  }

  lemma CreateKeepsOwners(q: Queue, r: Queue, a: Addr)
    requires Owned(q) && a !in q.heap && a < UINTPTR_MAX
    requires r.heap.Keys == q.heap.Keys + {a} && r.transit == q.transit + {a} && r.batch == q.batch
    requires forall b :: Queued(r, b) <==> Queued(q, b)
    ensures Owned(r)
  {
    assert !Queued(q, a);
    hide Queued, Addrs;
    assert forall b :: b in r.heap <==> b in r.heap.Keys;
    assert forall b :: b in q.heap <==> b in q.heap.Keys;
  }

  lemma AddKeeps(q: Queue, a: Addr, clock: int)
    requires Inv(q) && a in q.transit
    ensures Inv(Added(q, a, clock))
  {
    var w := q.(transit := q.transit - {a});
    var i := Insert(w, a);
    SameSets(q, w);
    assert Keyed(w) && Agree(w) && !Queued(w, a);
    hide Keyed, Agree, Numbered, Queued;
    InsertKeeps(w, a);
    SameNumbers(w, i);
    SameSets(i, Added(q, a, clock));
    AddKeepsOwners(q, Added(q, a, clock), a);
    hide Owned;
  }

  lemma AddKeepsOwners(q: Queue, r: Queue, a: Addr)
    requires Owned(q) && a in q.transit
    requires r.heap == q.heap && r.transit == q.transit - {a} && r.batch == q.batch
    requires forall b :: Queued(r, b) <==> Queued(q, b) || b == a
    ensures Owned(r)
  {
    hide Queued, Addrs;
  }

  lemma CancelKeeps(q: Queue, id: Key)
    requires Inv(q)
    ensures id in q.active ==> id.timer in q.heap
    ensures Inv(Cancelled(q, id))
  {
    hide Sorted, Less, Live, Erased;
    if id in q.active {
      var e := Entry(q.heap[id.timer].expiration, id.timer);
      var w := q.(timers := Erased(q.timers, e), active := q.active - {id});
      EraseKeeps(q, id);
      SameNumbers(q, w);
      DeleteKeeps(w, id.timer);
      hide Keyed, Agree, Numbered, Queued, Addrs;
    } else {
      hide Numbered;
      SameSets(q, Cancelled(q, id));
    }
  }

  lemma EraseKeeps(q: Queue, id: Key)
    requires Keyed(q) && Agree(q) && id in q.active
    ensures id.timer in q.heap && Queued(q, id.timer) && id == KeyOf(q, id.timer)
    ensures var e := Entry(q.heap[id.timer].expiration, id.timer);
      var w := q.(timers := Erased(q.timers, e), active := q.active - {id});
      && Keyed(w) && Agree(w)
      && (forall b :: Queued(w, b) <==> Queued(q, b) && b != id.timer)
  {
    ErasedIs(q.timers, Entry(q.heap[id.timer].expiration, id.timer));
  }

  /** getExpired takes exactly the timers that are due, and the assert behind its search holds. */
  lemma ExpiredExactly(q: Queue, now: int)
    requires Keyed(q) && Owned(q)
    ensures Expired(q.timers, ExpiredCount(q, now), now)
  {
    var k := ExpiredCount(q, now);
    var sentry := Entry(now, UINTPTR_MAX);
    forall i | k <= i < |q.timers|
      ensures now < q.timers[i].when
    {
      assert q.timers[k] in q.timers && q.timers[i] in q.timers;
      assert !Less(q.timers[k], sentry);
      assert k < i ==> Less(q.timers[k], q.timers[i]);
    }
  }

  lemma DistinctTimers(q: Queue)
    requires Keyed(q)
    ensures forall i, j :: 0 <= i < j < |q.timers| ==> q.timers[i].timer != q.timers[j].timer
  {
    forall i, j | 0 <= i < j < |q.timers|
      ensures q.timers[i].timer != q.timers[j].timer
    {
      assert q.timers[i] in q.timers && q.timers[j] in q.timers;
      assert Less(q.timers[i], q.timers[j]);
    }
  }

  lemma LaterNotEarlier(q: Queue, k: nat)
    requires Keyed(q) && k <= |q.timers|
    ensures forall e :: e in q.timers[k..] ==> e.timer !in Addrs(q.timers[..k])
  {
    DistinctTimers(q);
    forall e | e in q.timers[k..]
      ensures e.timer !in Addrs(q.timers[..k])
    {
      var j :| 0 <= j < |q.timers[k..]| && q.timers[k..][j] == e;
      assert q.timers[k + j] == e;
      forall f | f in q.timers[..k]
        ensures f.timer != e.timer
      {
        var i :| 0 <= i < k && q.timers[i] == f;
      }
    }
  }

  lemma SplitQueued(q: Queue, k: nat, a: Addr)
    requires Keyed(q) && k <= |q.timers|
    ensures Queued(q, a) && a !in Addrs(q.timers[..k]) <==>
            a in q.heap && Entry(q.heap[a].expiration, a) in q.timers[k..]
    ensures a in Addrs(q.timers[..k]) ==> Queued(q, a)
  {
    assert q.timers == q.timers[..k] + q.timers[k..];
    LaterNotEarlier(q, k);
  }

  lemma FireKeeps(q: Queue, now: int)
    requires Inv(q) && !q.calling
    ensures Inv(Fired(q, now))
  {
    var r := Fired(q, now);
    var k := ExpiredCount(q, now);
    DistinctTimers(q);
    FireSplits(q, now);
    SameNumbers(q, r);
    FireKeepsOwners(q, r, q.timers[..k]);
    FireKeepsKeyed(q, now);
  }

  lemma FireSplits(q: Queue, now: int)
    requires Inv(q) && !q.calling
    ensures var r := Fired(q, now); var expired := q.timers[..ExpiredCount(q, now)];
      && (forall a :: Queued(r, a) <==> Queued(q, a) && a !in Addrs(expired))
      && (forall a :: a in Addrs(expired) ==> Queued(q, a))
  {
    var k := ExpiredCount(q, now);
    forall a
      ensures Queued(Fired(q, now), a) <==> Queued(q, a) && a !in Addrs(q.timers[..k])
      ensures a in Addrs(q.timers[..k]) ==> Queued(q, a)
    {
      SplitQueued(q, k, a);
    }
  }

  lemma FireKeepsKeyed(q: Queue, now: int)
    requires Inv(q) && !q.calling
    ensures Keyed(Fired(q, now)) && Agree(Fired(q, now))
  {
    FireSplits(q, now);
    hide Owned, Numbered, Addrs;
    var r := Fired(q, now);
    forall e | e in r.timers
      ensures e in q.timers
    {
    }
    hide Queued;
  }

  lemma FireKeepsOwners(q: Queue, r: Queue, expired: seq<Entry>)
    requires Owned(q) && q.batch == [] && r.heap == q.heap && r.transit == q.transit && r.batch == expired
    requires forall a :: Queued(r, a) <==> Queued(q, a) && a !in Addrs(expired)
    requires forall a :: a in Addrs(expired) ==> Queued(q, a)
    requires forall i, j :: 0 <= i < j < |expired| ==> expired[i].timer != expired[j].timer
    ensures Owned(r)
  {
    assert forall a :: Queued(q, a) ==> a in q.heap;
    hide Queued;
    assert Addrs(q.batch) == {};
    hide Addrs;
  }

  lemma CallKeeps(q: Queue)
    requires Inv(q) && q.next < |q.batch|
    ensures q.batch[q.next].timer in q.heap && Inv(Called(q))
  {
    BatchMember(q, q.next);
    hide Keyed, Agree, Numbered;
    SameSets(q, Called(q));
  }

  lemma FinishKeeps(q: Queue, clock: int)
    requires Inv(q)
    ensures Consistent(q.(calling := false, next := 0))
    ensures Inv(Finished(q, clock))
  {
    var w := q.(calling := false, next := 0);
    SameSets(q, w);
    assert Consistent(w) by {
      hide Keyed, Agree, Numbered;
    }
    hide Keyed, Agree, Numbered, Owned, ResetAll;
    ResetAllKeepsFlags(w);
    var r := ResetAll(w);
    AlarmKeeps(r, if |r.timers| > 0 then r.timers[0].when else 0, clock);
  }

  /** Setting the timerfd changes nothing else. */
  lemma AlarmKeeps(q: Queue, when: int, clock: int)
    ensures Consistent(q) <==> Consistent(SetTimerfd(q, when, clock))
  {
    SameSets(q, SetTimerfd(q, when, clock));
    hide Keyed, Agree, Numbered, Queued, Addrs;
  }

  lemma {:induction false} ResetAllKeepsFlags(q: Queue)
    requires Consistent(q)
    ensures var r := ResetAll(q);
      r.calling == q.calling && r.next == q.next && r.ran == q.ran && r.canceling == q.canceling
      && r.transit == q.transit && r.created == q.created && r.now == q.now && r.kernel == q.kernel
      && q.freed <= r.freed
    decreases |q.batch|
  {
    if |q.batch| > 0 {
      BatchHead(q);
      ResetFirstConsistent(q);
      ResetAllKeepsFlags(ResetFirst(q));
    }
  }

  function Next(q: Queue, act: Action): (r: Queue)
    requires Inv(q) && Enabled(q, act)
    ensures Inv(r)
  {
    match act
    case Create(a, when, interval) =>
      CreateKeeps(q, a, when, interval);
      Created(q, a, when, interval)
    case Add(a, clock) =>
      AddKeeps(q, a, clock);
      Added(q, a, clock)
    case Cancel(id) =>
      CancelKeeps(q, id);
      Cancelled(q, id)
    case Fire(clock) =>
      FireKeeps(q, clock);
      Fired(q, clock)
    case Call =>
      CallKeeps(q);
      Called(q)
    case Finish(clock) =>
      FinishKeeps(q, clock);
      Finished(q, clock)
  }

  // ---- Runs ----

  predicate Legal(q: Queue, acts: seq<Action>)
    requires Inv(q)
    decreases |acts|
  {
    |acts| == 0 || (Enabled(q, acts[0]) && Legal(Next(q, acts[0]), acts[1..]))
  }

  function Run(q: Queue, acts: seq<Action>): (r: Queue)
    requires Inv(q) && Legal(q, acts)
    ensures Inv(r)
    decreases |acts|
  {
    if |acts| == 0 then q else Run(Next(q, acts[0]), acts[1..])
  }

  lemma EmptyInv()
    ensures Inv(EMPTY)
  {
    assert Addrs(EMPTY.batch) == {};
  }

  /** A run of the queue from its construction. */
  predicate LegalRun(acts: seq<Action>) {
    EmptyInv();
    Legal(EMPTY, acts)
  }

  function Reached(acts: seq<Action>): (q: Queue)
    requires LegalRun(acts)
    ensures Inv(q)
  {
    EmptyInv();
    Run(EMPTY, acts)
  }

  /** Over any run of adds, cancels and batches whose callbacks add and cancel in turn: the two sets hold the same
      timers, every live timer has exactly one owner, and each timer ever created is live or was deleted once. */
  lemma OwnershipHolds(acts: seq<Action>)
    requires LegalRun(acts)
    ensures var q := Reached(acts);
      && Sorted(q.timers)
      && (forall k :: k in q.active <==>
            && k.timer in q.heap && q.heap[k.timer].sequence == k.sequence
            && Entry(q.heap[k.timer].expiration, k.timer) in q.timers)
      && (forall e :: e in q.timers ==> e.timer in q.heap && q.heap[e.timer].expiration == e.when)
      && (forall a :: a in q.heap ==>
            OneOf(a in q.transit, Entry(q.heap[a].expiration, a) in q.timers, a in Addrs(q.batch)))
      && (forall a :: a in Addrs(q.batch) ==> a in q.heap)
      && (forall s: nat :: q.freed[s] == if 1 <= s <= q.created && !Live(q, s) then 1 else 0)
      && (!q.calling ==> q.batch == [])
  {
    hide Live, LegalRun, Sorted, Addrs;
    var q := Reached(acts);
    hide Reached;
  }

  predicate OneOf(a: bool, b: bool, c: bool) {
    (a && !b && !c) || (!a && b && !c) || (!a && !b && c)
  }

  // ---- The timerfd is never set too late ----

  /** A waiting timer implies a timerfd that fires, or has fired, no later than its expiration
      or 100 microseconds after it was last set. */
  predicate NotForgotten(q: Queue) {
    !q.calling && |q.timers| > 0 ==>
      && q.kernel.Armed?
      && (q.kernel.deadline <= q.timers[0].when || q.kernel.deadline <= q.kernel.at + 100)
  }

  ghost predicate AllPositive(q: Queue) {
    && (forall a :: a in q.heap ==> q.heap[a].expiration > 0)
    && (q.calling ==> q.now > 0)
  }

  /** Timestamp::valid: a time after the epoch. */
  predicate ValidTime(act: Action) {
    match act
    case Create(_, when, _) => when > 0
    case Fire(clock) => clock > 0
    case _ => true
  }

  lemma {:induction false} ResetAllPositive(q: Queue)
    requires Consistent(q) && q.now > 0
    requires forall a :: a in q.heap ==> q.heap[a].expiration > 0
    ensures forall a :: a in ResetAll(q).heap ==> ResetAll(q).heap[a].expiration > 0
    decreases |q.batch|
  {
    if |q.batch| > 0 {
      BatchHead(q);
      ResetFirstConsistent(q);
      ResetAllPositive(ResetFirst(q));
    }
  }

  lemma FinishPositive(q: Queue, clock: int)
    requires Inv(q) && q.calling && AllPositive(q)
    ensures Consistent(q.(calling := false, next := 0))
    ensures AllPositive(Finished(q, clock))
  {
    hide Inv, Consistent, ResetAll;
    FinishKeeps(q, clock);
    ResetAllPositive(q.(calling := false, next := 0));
    ResetAllKeepsFlags(q.(calling := false, next := 0));
  }

  lemma StepPositive(q: Queue, act: Action)
    requires Inv(q) && Enabled(q, act) && AllPositive(q) && ValidTime(act)
    ensures AllPositive(Next(q, act))
  {
    if act.Finish? {
      FinishPositive(q, act.clock);
      hide Inv, AllPositive, Finished;
    } else {
      hide Inv, Finished;
    }
  }

  lemma AddNotForgotten(q: Queue, a: Addr, clock: int)
    requires Inv(q) && a in q.transit && NotForgotten(q)
    ensures NotForgotten(Added(q, a, clock))
  {
    var w := q.(transit := q.transit - {a});
    SameSets(q, w);
    InsertKeeps(w, a);
    hide Keyed, Agree, Owned, Numbered, Queued, Inserted;
  }

  lemma CancelNotForgotten(q: Queue, id: Key)
    requires Inv(q) && NotForgotten(q)
    ensures NotForgotten(Cancelled(q, id))
  {
    if id in q.active {
      EraseKeeps(q, id);
      var e := Entry(q.heap[id.timer].expiration, id.timer);
      ErasedIs(q.timers, e);
      assert |q.timers| > 1 ==> Less(q.timers[0], q.timers[1]);
      hide Keyed, Agree, Owned, Numbered, Queued, Erased;
    }
  }

  /** addTimer sets the timerfd, for the new timer and no sooner than 100 microseconds ahead, exactly when every timer
      already waiting expires later. */
  lemma AddSetsTimerfd(q: Queue, a: Addr, clock: int)
    requires Inv(q) && a in q.transit
    ensures a in q.heap
    ensures var when := q.heap[a].expiration;
      Added(q, a, clock).kernel ==
        if forall e :: e in q.timers ==> when < e.when
        then Armed(if when < clock + 100 then clock + 100 else when, clock)
        else q.kernel
  {
    var when := q.heap[a].expiration;
    if |q.timers| > 0 {
      assert q.timers[0] in q.timers;
      forall e | e in q.timers
        ensures q.timers[0].when <= e.when
      {
        var i :| 0 <= i < |q.timers| && q.timers[i] == e;
        assert i > 0 ==> Less(q.timers[0], q.timers[i]);
      }
    }
    hide Agree, Owned, Numbered, Inserted;
  }

  /** After a batch the timerfd is set again exactly when a timer is left whose time is valid. */
  lemma FinishSetsTimerfd(q: Queue, clock: int)
    requires Inv(q)
    ensures Consistent(q.(calling := false, next := 0))
    ensures var r := Finished(q, clock);
      if |r.timers| > 0 && r.timers[0].when > 0
      then r.kernel == Armed(if r.timers[0].when < clock + 100 then clock + 100 else r.timers[0].when, clock)
      else r.kernel == q.kernel
  {
    hide Inv, Consistent, ResetAll;
    FinishKeeps(q, clock);
    ResetAllKeepsFlags(q.(calling := false, next := 0));
  }

  lemma StepNotForgotten(q: Queue, act: Action)
    requires Inv(q) && Enabled(q, act) && NotForgotten(q) && AllPositive(q) && ValidTime(act)
    ensures NotForgotten(Next(q, act))
  {
    hide Consistent;
    match act
    case Create(_, _, _) =>
    case Add(a, clock) => AddNotForgotten(q, a, clock);
    case Cancel(id) => CancelNotForgotten(q, id);
    case Fire(_) =>
    case Call =>
    case Finish(clock) =>
      FinishSetsTimerfd(q, clock);
      StepPositive(q, act);
      if |Next(q, act).timers| > 0 {
        EarliestIsLive(Next(q, act));
      }
  }

  lemma EarliestIsLive(q: Queue)
    requires Inv(q) && |q.timers| > 0 && AllPositive(q)
    ensures q.timers[0].when > 0
  {
    assert q.timers[0] in q.timers;
  }

  /** Whatever is added, cancelled or refilled in or out of callbacks, no waiting timer is left without a
      timerfd that is due in time, as long as all times are valid. */
  lemma {:induction false} NeverForgotten(q: Queue, acts: seq<Action>)
    requires Inv(q) && NotForgotten(q) && AllPositive(q)
    requires Legal(q, acts) && forall act :: act in acts ==> ValidTime(act)
    ensures NotForgotten(Run(q, acts))
    decreases |acts|
  {
    if |acts| == 0 {
    } else {
      hide Inv, NotForgotten, AllPositive;
      assert acts[0] in acts;
      StepNotForgotten(q, acts[0]);
      StepPositive(q, acts[0]);
      NeverForgotten(Next(q, acts[0]), acts[1..]);
    }
  }

  /** In particular from the queue's construction on. */
  lemma NoTimerForgotten(acts: seq<Action>)
    requires LegalRun(acts) && forall act :: act in acts ==> ValidTime(act)
    ensures NotForgotten(Reached(acts))
  {
    EmptyInv();
    NeverForgotten(EMPTY, acts);
  }

  // ---- Cancellation ----

  lemma FreedIsFinal(q: Queue, s: nat)
    requires Consistent(q) && s in q.freed
    ensures ResetAll(q).freed[s] == 1
  {
    ResetAllKeepsFlags(q);
    assert Numbered(ResetAll(q));
    hide Live;
  }

  /** What reset does with a timer: a batch timer is restarted, or deleted; any other is left alone. */
  predicate Outcome(q: Queue, r: Queue, a: Addr)
    requires a in q.heap
  {
    var t := q.heap[a];
    if a !in Addrs(q.batch) then a in r.heap && r.heap[a] == t
    else if t.interval > 0 && KeyOf(q, a) !in q.canceling
      then a in r.heap && r.heap[a] == t.(expiration := q.now + t.interval)
    else r.freed[t.sequence] == 1
  }

  /** One round of reset restarts or deletes the head of the batch and keeps every other timer. */
  predicate HeadDone(q: Queue, f: Queue, head: Addr)
    requires head in q.heap
  {
    var t := q.heap[head];
    && f.canceling == q.canceling && f.now == q.now
    && Addrs(q.batch) == Addrs(f.batch) + {head} && head !in Addrs(f.batch)
    && (forall b :: b in q.heap && b != head ==> b in f.heap && f.heap[b] == q.heap[b])
    && (if t.interval > 0 && KeyOf(q, head) !in q.canceling
        then head in f.heap && f.heap[head] == t.(expiration := q.now + t.interval)
        else head !in f.heap && t.sequence in f.freed)
  }

  lemma ResetFirstDone(q: Queue)
    requires Consistent(q) && |q.batch| > 0 && q.batch[0].timer in q.heap
    ensures HeadDone(q, ResetFirst(q), q.batch[0].timer)
  {
    BatchHead(q);
    hide Consistent, Inserted, Addrs;
  }

  lemma OutcomeFollows(q: Queue, f: Queue, r: Queue, head: Addr, a: Addr)
    requires head in q.heap && a in q.heap && HeadDone(q, f, head)
    requires if a in f.heap then Outcome(f, r, a) else r.freed[q.heap[a].sequence] == 1
    ensures Outcome(q, r, a)
  {
    hide Addrs;
  }

  lemma {:induction false} ResetAllOutcome(q: Queue, a: Addr)
    requires Consistent(q) && a in q.heap
    ensures Outcome(q, ResetAll(q), a)
    decreases |q.batch|
  {
    if |q.batch| == 0 {
    } else {
      BatchHead(q);
      ResetFirstConsistent(q);
      ResetFirstDone(q);
      var f := ResetFirst(q);
      if a in f.heap {
        ResetAllOutcome(f, a);
      } else {
        FreedIsFinal(f, q.heap[a].sequence);
      }
      OutcomeFollows(q, f, ResetAll(f), q.batch[0].timer, a);
      hide Consistent, ResetFirst, Addrs, Outcome, HeadDone;
    }
  }

  /** A deleted timer stays deleted, and a step runs only live ones. */
  lemma DeadStep(q: Queue, act: Action, s: nat)
    requires Inv(q) && Enabled(q, act) && s in q.freed
    ensures s in Next(q, act).freed
    ensures q.ran <= Next(q, act).ran && s !in Next(q, act).ran[|q.ran|..]
  {
    hide Consistent, Live, Inserted, Erased, ResetAll;
    if act.Call? {
      DeadCall(q, s);
    } else if act.Finish? {
      DeadFinish(q, act.clock, s);
    }
    hide Inv, Called, Finished;
  }

  lemma DeadCall(q: Queue, s: nat)
    requires Inv(q) && Enabled(q, Call) && s in q.freed
    ensures q.batch[q.next].timer in q.heap
    ensures var r := Called(q); r.freed == q.freed && q.ran <= r.ran && s !in r.ran[|q.ran|..]
  {
    BatchMember(q, q.next);
    LiveNotFreed(q, q.batch[q.next].timer);
    hide Inv;
  }

  lemma DeadFinish(q: Queue, clock: int, s: nat)
    requires Inv(q) && s in q.freed
    ensures Consistent(q.(calling := false, next := 0))
    ensures var r := Finished(q, clock); s in r.freed && r.ran == q.ran
  {
    FinishKeeps(q, clock);
    ResetAllKeepsFlags(q.(calling := false, next := 0));
    hide Inv, Consistent, ResetAll;
  }

  lemma LiveNotFreed(q: Queue, a: Addr)
    requires Numbered(q) && a in q.heap
    ensures q.heap[a].sequence !in q.freed && q.heap[a].sequence >= 1
  {
    assert Live(q, q.heap[a].sequence);
  }

  lemma SuffixOfSuffix(a: seq<nat>, b: seq<nat>, c: seq<nat>, s: nat)
    requires a <= b <= c && s !in b[|a|..] && s !in c[|b|..]
    ensures a <= c && s !in c[|a|..]
  {
    assert c[|a|..] == b[|a|..] + c[|b|..];
  }

  /** Once a timer is deleted its callback never runs again. */
  lemma {:induction false} DeadNeverRuns(q: Queue, acts: seq<Action>, s: nat)
    requires Inv(q) && Legal(q, acts) && s in q.freed
    ensures s in Run(q, acts).freed
    ensures q.ran <= Run(q, acts).ran && s !in Run(q, acts).ran[|q.ran|..]
    decreases |acts|
  {
    if |acts| == 0 {
    } else {
      var n := Next(q, acts[0]);
      DeadStep(q, acts[0], s);
      hide Inv, Next;
      DeadNeverRuns(n, acts[1..], s);
      SuffixOfSuffix(q.ran, n.ran, Run(n, acts[1..]).ran, s);
    }
  }

  /** A queued timer that is cancelled never runs again, in any later run. */
  lemma CancelledNeverRuns(q: Queue, id: Key, acts: seq<Action>)
    requires Inv(q) && id in q.active && Legal(Next(q, Cancel(id)), acts)
    ensures var r := Run(Next(q, Cancel(id)), acts);
      q.ran <= r.ran && id.sequence !in r.ran[|q.ran|..]
  {
    CancelKeeps(q, id);
    DeadNeverRuns(Next(q, Cancel(id)), acts, id.sequence);
  }

  /** `id` names a timer of the running batch and has been cancelled. */
  ghost predicate Marked(q: Queue, id: Key) {
    q.calling && id.timer in Addrs(q.batch) && id.timer in q.heap && KeyOf(q, id.timer) == id && id in q.canceling
  }

  lemma MarkedStep(q: Queue, act: Action, id: Key)
    requires Inv(q) && Enabled(q, act) && Marked(q, id) && !act.Finish?
    ensures Marked(Next(q, act), id)
  {
    if act.Cancel? && act.id in q.active {
      EraseKeeps(q, act.id);
      assert act.id.timer != id.timer;
    }
    hide Consistent;
  }

  lemma {:induction false} MarkedRun(q: Queue, acts: seq<Action>, id: Key)
    requires Inv(q) && Legal(q, acts) && Marked(q, id) && forall act :: act in acts ==> !act.Finish?
    ensures Marked(Run(q, acts), id)
    decreases |acts|
  {
    if |acts| == 0 {
    } else {
      assert acts[0] in acts;
      MarkedStep(q, acts[0], id);
      hide Inv, Next, Marked;
      MarkedRun(Next(q, acts[0]), acts[1..], id);
    }
  }

  lemma FinishIs(q: Queue, clock: int)
    requires Inv(q)
    ensures var w := q.(calling := false, next := 0);
      && Consistent(w)
      && Finished(q, clock).freed == ResetAll(w).freed && Finished(q, clock).heap == ResetAll(w).heap
  {
    hide Inv, Consistent, ResetAll;
    FinishKeeps(q, clock);
  }

  lemma MarkedIsDeleted(q: Queue, id: Key, clock: int)
    requires Inv(q) && Marked(q, id) && Enabled(q, Finish(clock))
    ensures Next(q, Finish(clock)).freed[id.sequence] == 1
  {
    FinishIs(q, clock);
    ResetAllOutcome(q.(calling := false, next := 0), id.timer);
    hide Inv, Consistent, ResetAll, Finished, Addrs;
  }

  /** The queue after `id` is cancelled and `during` is run, the batch still unfinished. */
  function CancelThen(q: Queue, id: Key, during: seq<Action>): (r: Queue)
    requires Inv(q) && Legal(Next(q, Cancel(id)), during)
    ensures Inv(r)
  {
    Run(Next(q, Cancel(id)), during)
  }

  /** Cancelling a timer from a callback of the batch it is in: whatever else the callbacks do, it is deleted at
      the end of the batch, not restarted, and never runs afterwards. */
  lemma CancelledInBatch(q: Queue, id: Key, during: seq<Action>, clock: int, done: Queue, after: seq<Action>)
    requires Inv(q) && q.calling && id.timer in Addrs(q.batch) && id.timer in q.heap && KeyOf(q, id.timer) == id
    requires Legal(Next(q, Cancel(id)), during) && forall act :: act in during ==> !act.Finish?
    requires Enabled(CancelThen(q, id, during), Finish(clock))
    requires done == Next(CancelThen(q, id, during), Finish(clock)) && Legal(done, after)
    ensures done.freed[id.sequence] == 1
    ensures done.ran <= Run(done, after).ran && id.sequence !in Run(done, after).ran[|done.ran|..]
  {
    NowMarked(q, id);
    hide Inv, Run, Legal, Addrs, Marked, KeyOf, Next, Enabled;
    MarkedRun(Next(q, Cancel(id)), during, id);
    MarkedIsDeleted(CancelThen(q, id, during), id, clock);
    DeadNeverRuns(done, after, id.sequence);
  }

  lemma NowMarked(q: Queue, id: Key)
    requires Inv(q) && q.calling && id.timer in Addrs(q.batch) && id.timer in q.heap && KeyOf(q, id.timer) == id
    ensures Marked(Next(q, Cancel(id)), id)
  {
    hide Keyed, Numbered;
  }

  // ---- Stale ids ----

  /** The id of a deleted timer, or a default-constructed one. */
  predicate Stale(q: Queue, id: Key) {
    id.sequence in q.freed || id.sequence == 0
  }

  /** `p` is `q`, up to `id` among the keys cancelled during this batch. */
  predicate SameUpTo(p: Queue, q: Queue, id: Key) {
    p == q || p == q.(canceling := q.canceling + {id})
  }

  lemma ResetFirstIgnores(p: Queue, q: Queue, id: Key)
    requires |q.batch| > 0 && q.batch[0].timer in q.heap && SameUpTo(p, q, id)
    requires KeyOf(q, q.batch[0].timer) != id && Stale(q, id)
    ensures SameUpTo(ResetFirst(p), ResetFirst(q), id) && Stale(ResetFirst(q), id)
  {
    hide Inserted;
  }

  lemma {:induction false} ResetAllIgnores(p: Queue, q: Queue, id: Key)
    requires Consistent(p) && Consistent(q) && SameUpTo(p, q, id) && Stale(q, id)
    ensures SameUpTo(ResetAll(p), ResetAll(q), id)
    decreases |q.batch|
  {
    if |q.batch| == 0 {
    } else {
      BatchHead(q);
      LiveNotFreed(q, q.batch[0].timer);
      ResetFirstConsistent(p);
      ResetFirstConsistent(q);
      ResetFirstIgnores(p, q, id);
      hide Consistent, Addrs, ResetFirst, Stale;
      ResetAllIgnores(ResetFirst(p), ResetFirst(q), id);
    }
  }

  lemma StaleFinish(p: Queue, q: Queue, clock: int, id: Key)
    requires Inv(p) && Inv(q) && SameUpTo(p, q, id) && Stale(q, id)
    ensures Consistent(p.(calling := false, next := 0)) && Consistent(q.(calling := false, next := 0))
    ensures SameUpTo(Finished(p, clock), Finished(q, clock), id)
  {
    hide Inv, Consistent, ResetAll;
    FinishKeeps(p, clock);
    FinishKeeps(q, clock);
    ResetAllIgnores(p.(calling := false, next := 0), q.(calling := false, next := 0), id);
  }

  lemma StaleStep(p: Queue, q: Queue, act: Action, id: Key)
    requires Inv(p) && Inv(q) && SameUpTo(p, q, id) && Stale(q, id) && Enabled(q, act)
    ensures Enabled(p, act) && SameUpTo(Next(p, act), Next(q, act), id) && Stale(Next(q, act), id)
  {
    hide Consistent, Finished;
    if id.sequence in q.freed {
      DeadStep(q, act, id.sequence);
    }
    if act.Finish? {
      StaleFinish(p, q, act.clock, id);
      hide Inv;
    } else if act.Call? {
      CallKeeps(p);
      CallKeeps(q);
      hide Inv, Finished;
    } else if act.Cancel? {
      CancelKeeps(p, act.id);
      CancelKeeps(q, act.id);
      hide Inv, Finished, Erased;
    } else {
      hide Inv, Finished, Inserted, Addrs, ExpiredCount;
    }
  }

  lemma {:induction false} StaleRun(p: Queue, q: Queue, acts: seq<Action>, id: Key)
    requires Inv(p) && Inv(q) && SameUpTo(p, q, id) && Stale(q, id) && Legal(q, acts)
    ensures Legal(p, acts) && SameUpTo(Run(p, acts), Run(q, acts), id)
    decreases |acts|
  {
    if |acts| == 0 {
    } else {
      StaleStep(p, q, acts[0], id);
      hide Inv, Next, Stale, SameUpTo;
      StaleRun(Next(p, acts[0]), Next(q, acts[0]), acts[1..], id);
    }
  }

  lemma StaleNotActive(q: Queue, id: Key)
    requires Inv(q) && Stale(q, id)
    ensures id !in q.active
  {
    if id.timer in q.heap {
      LiveNotFreed(q, id.timer);
    }
  }

  /** Cancelling with a stale id changes nothing, now or in any later run, even when its address is in use again. */
  lemma StaleCancelChangesNothing(q: Queue, id: Key, acts: seq<Action>)
    requires Inv(q) && Stale(q, id) && Legal(q, acts)
    ensures Legal(Next(q, Cancel(id)), acts)
    ensures Run(Next(q, Cancel(id)), acts).(canceling := {}) == Run(q, acts).(canceling := {})
  {
    StaleNotActive(q, id);
    StaleRun(Next(q, Cancel(id)), q, acts, id);
  }

  // ---- Shapes of runs ----

  lemma {:induction false} RunThen(q: Queue, acts: seq<Action>, act: Action)
    requires Inv(q) && Legal(q, acts) && Enabled(Run(q, acts), act)
    ensures Legal(q, acts + [act]) && Run(q, acts + [act]) == Next(Run(q, acts), act)
    decreases |acts|
  {
    hide Inv, Next, Enabled;
    if |acts| == 0 {
      assert acts + [act] == [act];
      assert [act][1..] == [];
    } else {
      RunThen(Next(q, acts[0]), acts[1..], act);
      assert (acts + [act])[1..] == acts[1..] + [act];
    }
  }

  /** The callbacks run in a run. */
  function Calls(acts: seq<Action>): nat {
    if |acts| == 0 then 0 else Calls(acts[..|acts| - 1]) + (if acts[|acts| - 1].Call? then 1 else 0)
  }

  lemma CallsThen(acts: seq<Action>, act: Action)
    ensures Calls(acts + [act]) == Calls(acts) + (if act.Call? then 1 else 0)
  {
    assert (acts + [act])[..|acts|] == acts;
  }

  /** Distinct timers have as many keys as there are entries. */
  lemma {:induction false} KeysOfTimers(heap: map<Addr, Timer>, ts: seq<Entry>, keys: set<Key>)
    requires forall i, j :: 0 <= i < j < |ts| ==> ts[i].timer != ts[j].timer
    requires forall a :: a in Addrs(ts) ==> a in heap
    requires forall k :: k in keys <==> k.timer in heap && k.sequence == heap[k.timer].sequence && k.timer in Addrs(ts)
    ensures |keys| == |ts|
  {
    if |ts| == 0 {
      assert keys == {};
    } else {
      var init, last := ts[..|ts| - 1], ts[|ts| - 1];
      AddrsSplit(ts);
      var key := Key(last.timer, heap[last.timer].sequence);
      hide Addrs;
      KeysOfTimers(heap, init, keys - {key});
    }
  }

  lemma AddrsSplit(ts: seq<Entry>)
    requires |ts| > 0 && forall i, j :: 0 <= i < j < |ts| ==> ts[i].timer != ts[j].timer
    ensures var init, last := ts[..|ts| - 1], ts[|ts| - 1];
      && Addrs(ts) == Addrs(init) + {last.timer}
      && last.timer !in Addrs(init)
  {
    var init, last := ts[..|ts| - 1], ts[|ts| - 1];
    assert ts == init + [last];
    forall e | e in init
      ensures e.timer != last.timer
    {
      var i :| 0 <= i < |init| && init[i] == e;
      assert ts[i] == e;
    }
  }

  /** The assert that every member of TimerQueue repeats. */
  lemma SizesAgree(q: Queue)
    requires Keyed(q) && Agree(q)
    ensures |q.timers| == |q.active|
  {
    DistinctTimers(q);
    forall a
      ensures a in Addrs(q.timers) <==> Queued(q, a)
    {
    }
    KeysOfTimers(q.heap, q.timers, q.active);
  }

  lemma SetsAgree(q: Queue)
    requires Inv(q)
    ensures Keyed(q) && Agree(q) && Owned(q)
  {
  }

  /** A timer whose add is pending is in neither set. */
  lemma AddReady(q: Queue, a: Addr)
    requires Inv(q) && a in q.transit
    ensures var w := q.(transit := q.transit - {a});
      Keyed(w) && Agree(w) && a in w.heap && !Queued(w, a)
  {
    SameSets(q, q.(transit := q.transit - {a}));
    hide Keyed, Agree, Numbered, Queued;
  }

  lemma ResetAllStep(q: Queue)
    requires Consistent(q) && |q.batch| > 0 && q.batch[0].timer in q.heap && Consistent(ResetFirst(q))
    ensures ResetAll(q) == ResetAll(ResetFirst(q))
  {
    hide Consistent, ResetFirst;
  }

  /** One round of reset: its timer is in neither set, restarted or not. */
  lemma ResetReady(q: Queue)
    requires Consistent(q) && |q.batch| > 0
    ensures q.batch[0].timer in q.heap
    ensures var a := q.batch[0].timer; var t := q.heap[a];
      var w := q.(batch := q.batch[1..], heap := q.heap[a := t.(expiration := q.now + t.interval)]);
      Keyed(w) && Agree(w) && !Queued(w, a)
    ensures Consistent(ResetFirst(q)) && ResetAll(q) == ResetAll(ResetFirst(q))
  {
    hide Keyed, Agree, Owned, Numbered, Queued, ResetFirst, ResetAll;
    BatchHead(q);
    ResetFirstConsistent(q);
    var a := q.batch[0].timer;
    var t := q.heap[a];
    var left := q.(batch := q.batch[1..]);
    LeftReady(q, left);
    ResetAllStep(q);
    RestartKeeps(left, a, t.(expiration := q.now + t.interval));
  }

  lemma LeftReady(q: Queue, left: Queue)
    requires Consistent(q) && |q.batch| > 0 && left == q.(batch := q.batch[1..])
    ensures Keyed(left) && Agree(left) && Numbered(left) && !Queued(left, q.batch[0].timer)
  {
    BatchHead(q);
    SameSets(q, left);
    hide Keyed, Agree, Numbered;
    assert q.batch[0].timer in Addrs(q.batch);
  }

  lemma ResetAllDone(q: Queue)
    requires Consistent(q) && q.batch == []
    ensures ResetAll(q) == q
  {
  }

  /** The members behind the actions. */
  lemma NextIs(q: Queue, act: Action)
    requires Inv(q) && Enabled(q, act)
    ensures act.Create? ==> Next(q, act) == Created(q, act.timer, act.when, act.interval)
    ensures act.Add? ==> act.timer in q.heap && Next(q, act) == Added(q, act.timer, act.clock)
    ensures act.Cancel? ==> (act.id in q.active ==> act.id.timer in q.heap) && Next(q, act) == Cancelled(q, act.id)
    ensures act.Fire? ==> Next(q, act) == Fired(q, act.clock)
    ensures act.Call? ==> q.batch[q.next].timer in q.heap && Next(q, act) == Called(q)
    ensures act.Finish? ==> Consistent(q.(calling := false, next := 0)) && Next(q, act) == Finished(q, act.clock)
  {
    match act
    case Create(_, _, _) =>
    case Add(_, _) =>
    case Cancel(id) => CancelKeeps(q, id);
    case Fire(_) =>
    case Call => CallKeeps(q);
    case Finish(clock) => FinishKeeps(q, clock);
  }
}
