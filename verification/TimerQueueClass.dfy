/** net/TimerQueue.cpp: the class, member by member, over the state machine of module TimerQueues. */
module TimerQueueClass {
  import opened TimerQueues

  /** What a timer callback may do: addTimer in the loop thread, or cancel. */
  datatype Op = AddOp(timer: Addr, when: int, interval: nat, clock: int) | CancelOp(id: Key)

  /** The steps of one op: addTimer where the allocator has the address free, or cancel. */
  function OpSteps(q: Queue, op: Op): seq<Action> {
    match op
    case AddOp(a, when, interval, clock) =>
      if a !in q.heap && a < UINTPTR_MAX then [Create(a, when, interval), Add(a, clock)] else []
    case CancelOp(id) => [Cancel(id)]
  }

  /** `r` is in the same place of the same batch. */
  predicate SamePlace(q: Queue, r: Queue) {
    r.batch == q.batch && r.next == q.next && r.now == q.now && r.calling == q.calling
  }

  function AfterOp(q: Queue, op: Op): (r: Queue)
    requires Inv(q)
    ensures Inv(r) && SamePlace(q, r)
  {
    hide Inv, Inserted, Erased;
    match op
    case AddOp(a, when, interval, clock) =>
      if a !in q.heap && a < UINTPTR_MAX then Next(Next(q, Create(a, when, interval)), Add(a, clock)) else q
    case CancelOp(id) => Next(q, Cancel(id))
  }

  function AfterOps(q: Queue, ops: seq<Op>): (r: Queue)
    requires Inv(q)
    ensures Inv(r) && SamePlace(q, r)
    decreases |ops|
  {
    if |ops| == 0 then q else AfterOps(AfterOp(q, ops[0]), ops[1..])
  }

  function AllSteps(q: Queue, ops: seq<Op>): seq<Action>
    requires Inv(q)
    decreases |ops|
  {
    if |ops| == 0 then [] else OpSteps(q, ops[0]) + AllSteps(AfterOp(q, ops[0]), ops[1..])
  }

  function Part(script: seq<seq<Op>>, i: nat): seq<Op> {
    if i < |script| then script[i] else []
  }

  /** The rest of a batch: each callback, and what it does. */
  function BatchSteps(q: Queue, script: seq<seq<Op>>): seq<Action>
    requires Inv(q) && q.calling
    decreases |q.batch| - q.next
  {
    if q.next >= |q.batch| then []
    else
      var c := Next(q, Call);
      assert c.batch == q.batch && c.next == q.next + 1 && c.calling;
      [Call] + AllSteps(c, Part(script, q.next)) + BatchSteps(AfterOps(c, Part(script, q.next)), script)
  }

  /** howMuchTimeFromNow, as seconds and nanoseconds. */
  method HowMuchTimeFromNow(when: int, clock: int) returns (sec: int, nsec: int)
    ensures 0 <= sec && 0 <= nsec < 1_000_000_000
    ensures 1_000_000_000 * sec + nsec == 1000 * Delay(when, clock)
  {
    var microseconds := when - clock;
    if microseconds < 100 {
      microseconds := 100;
    }
    sec := microseconds / 1_000_000;
    nsec := microseconds % 1_000_000 * 1000;
  }

  class TimerQueue {
    var heap: map<Addr, Timer>
    var numCreated: nat
    var timers: seq<Entry>
    var activeTimers: set<Key>
    var callingExpiredTimers: bool
    var cancelingTimers: set<Key>
    var timerfd: KernelTimer
    ghost var transit: set<Addr>
    ghost var batch: seq<Entry>
    ghost var next: nat
    ghost var batchTime: int
    ghost var ran: seq<nat>
    ghost var freed: multiset<nat>

    ghost function Abs(): Queue
      reads this
    {
      Queue(heap, numCreated, transit, timers, activeTimers, callingExpiredTimers, cancelingTimers,
            batch, next, batchTime, timerfd, ran, freed)
    }

    ghost predicate Valid()
      reads this
    {
      Inv(Abs())
    }

    constructor ()
      ensures Valid() && Abs() == EMPTY
    {
      heap, numCreated, timers, activeTimers := map[], 0, [], {};
      callingExpiredTimers, cancelingTimers, timerfd := false, {}, Disarmed;
      transit, batch, next, batchTime, ran, freed := {}, [], 0, 0, [], multiset{};
      new;
      EmptyInv();
    }

    /** addTimer up to the hand-over to the loop; `a` is where the allocator put the Timer. */
    method NewTimer(a: Addr, when: int, interval: nat) returns (id: Key)
      requires Valid() && Enabled(Abs(), Create(a, when, interval))
      modifies this`heap, this`numCreated, this`transit
      ensures Valid() && Abs() == Next(old(Abs()), Create(a, when, interval))
      ensures a in transit && id == KeyOf(Abs(), a) && id.sequence == old(numCreated) + 1
    {
      hide Inv, Next;
      NextIs(Abs(), Create(a, when, interval));
      numCreated := numCreated + 1;
      heap := heap[a := Timer(when, interval, numCreated)];
      transit := transit + {a};
      id := Key(a, numCreated);
    }

    method Insert(a: Addr) returns (earliestChanged: bool)
      requires Keyed(Abs()) && Agree(Abs()) && a in heap && !Queued(Abs(), a)
      modifies this`timers, this`activeTimers
      ensures Abs() == TimerQueues.Insert(old(Abs()), a)
      ensures earliestChanged <==> EarliestChanged(old(Abs()), a)
    {
      SizesAgree(Abs());
      assert |timers| == |activeTimers|;
      earliestChanged := false;
      var when := heap[a].expiration;
      if |timers| == 0 || when < timers[0].when {
        earliestChanged := true;
      }
      InsertKeeps(Abs(), a);
      assert Entry(when, a) !in timers;
      timers := Inserted(timers, Entry(when, a));
      assert Key(a, heap[a].sequence) !in activeTimers;
      activeTimers := activeTimers + {Key(a, heap[a].sequence)};
    }

    method AddTimerInLoop(a: Addr, clock: int)
      requires Valid() && a in transit
      modifies this`timers, this`activeTimers, this`timerfd, this`transit
      ensures Valid() && Abs() == Next(old(Abs()), Add(a, clock))
    {
      hide Inv, Keyed, Agree, Queued, Inserted, KeyOf, Next;
      AddReady(Abs(), a);
      NextIs(Abs(), Add(a, clock));
      transit := transit - {a};
      var earliestChanged := Insert(a);
      if earliestChanged {
        timerfd := Armed(clock + Delay(heap[a].expiration, clock), clock);
      }
    }

    method CancelInLoop(id: Key)
      requires Valid()
      modifies this`timers, this`activeTimers, this`heap, this`cancelingTimers, this`freed
      ensures Valid() && Abs() == Next(old(Abs()), Cancel(id))
    {
      hide Inv, Keyed, Agree, Erased, Next;
      SetsAgree(Abs());
      SizesAgree(Abs());
      assert |timers| == |activeTimers|;
      NextIs(Abs(), Cancel(id));
      if id in activeTimers {
        EraseKeeps(Abs(), id);
        var e := Entry(heap[id.timer].expiration, id.timer);
        assert e in timers;
        timers := Erased(timers, e);
        freed := freed + multiset{heap[id.timer].sequence};
        heap := heap - {id.timer};
        activeTimers := activeTimers - {id};
      } else if callingExpiredTimers {
        cancelingTimers := cancelingTimers + {id};
      }
    }

    /** Takes the timers that are due at `t` out of both sets, in order. */
    method GetExpired(t: int) returns (expired: seq<Entry>)
      requires Valid() && !callingExpiredTimers
      modifies this`timers, this`activeTimers
      ensures expired + timers == old(timers)
      ensures Expired(old(timers), |expired|, t) && |expired| == ExpiredCount(old(Abs()), t)
      ensures activeTimers == set x | x in old(activeTimers) && x.timer !in Addrs(expired)
    {
      ghost var q := Abs();
      hide Inv, Keyed, Agree, Owned, Addrs;
      SetsAgree(q);
      SizesAgree(q);
      assert |timers| == |activeTimers|;
      ExpiredExactly(q, t);
      var end := Position(timers, Entry(t, UINTPTR_MAX));
      assert end == |timers| || t < timers[end].when;
      expired := timers[..end];
      timers := timers[end..];
      EraseActive(expired, q);
      assert q.timers[..end] + q.timers[end..] == q.timers;
    }

    method EraseActive(expired: seq<Entry>, ghost q: Queue)
      requires Keyed(q) && Agree(q) && heap == q.heap && activeTimers == q.active && expired <= q.timers
      modifies this`activeTimers
      ensures activeTimers == set x | x in q.active && x.timer !in Addrs(expired)
    {
      DistinctTimers(q);
      for i := 0 to |expired|
        invariant activeTimers == set x | x in q.active && x.timer !in Addrs(expired[..i])
      {
        var a := expired[i].timer;
        assert expired[i] in q.timers;
        var timer := Key(a, heap[a].sequence);
        assert expired[..i + 1] == expired[..i] + [expired[i]];
        assert timer in activeTimers by {
          assert a !in Addrs(expired[..i]);
        }
        activeTimers := activeTimers - {timer};
      }
      assert expired[..|expired|] == expired;
    }

    /** reset: repeating timers that no callback cancelled go back in, the others are deleted. */
    method Reset(expired: seq<Entry>, now: int, clock: int)
      requires Consistent(Abs()) && expired == batch && now == batchTime
      modifies this`heap, this`timers, this`activeTimers, this`timerfd, this`batch, this`freed
      ensures Abs() == Afterwards(old(Abs()), clock)
    {
      hide Consistent, ResetAll, ResetFirst;
      ghost var start := Abs();
      for i := 0 to |expired|
        invariant batch == expired[i..] && now == batchTime
        invariant Consistent(Abs()) && ResetAll(Abs()) == ResetAll(start)
      {
        ResetRound(expired[i].timer, now);
        assert expired[i..][1..] == expired[i + 1..];
      }
      ResetAllDone(Abs());
      if |timers| > 0 {
        var nextExpire := timers[0].when;
        if nextExpire > 0 {
          timerfd := Armed(clock + Delay(nextExpire, clock), clock);
        }
      }
    }

    method ResetRound(a: Addr, now: int)
      requires Consistent(Abs()) && |batch| > 0 && a == batch[0].timer && now == batchTime
      modifies this`heap, this`timers, this`activeTimers, this`batch, this`freed
      ensures a in old(heap) && Abs() == ResetFirst(old(Abs()))
      ensures batch == old(batch)[1..] && batchTime == old(batchTime)
      ensures Consistent(Abs()) && ResetAll(Abs()) == ResetAll(old(Abs()))
    {
      hide Consistent, ResetAll, Keyed, Agree, Queued, Inserted;
      ResetReady(Abs());
      var timer := Key(a, heap[a].sequence);
      batch := batch[1..];
      if heap[a].interval > 0 && timer !in cancelingTimers {
        heap := heap[a := heap[a].(expiration := now + heap[a].interval)];
        var _ := Insert(a);
      } else {
        freed := freed + multiset{heap[a].sequence};
        heap := heap - {a};
      }
    }

    /** handleRead: the due timers leave the sets, call back in order, and go back or are deleted. Callback `i`
        does what `script[i]` says, an addTimer only where the allocator has a free address. The trace
        is the run of the state machine this amounts to. */
    method HandleRead(now: int, script: seq<seq<Op>>, clock: int) returns (ghost trace: seq<Action>)
      requires Valid() && !callingExpiredTimers
      modifies this
      ensures Valid() && Legal(old(Abs()), trace) && Abs() == Run(old(Abs()), trace)
      ensures trace == [Fire(now)] + BatchSteps(Next(old(Abs()), Fire(now)), script) + [Finish(clock)]
      ensures Calls(trace) == ExpiredCount(old(Abs()), now)
    {
      hide Inv, Run, Legal, Calls, Next, AllSteps, AfterOps;
      ghost var start := Abs();
      var expired := BeginBatch(now);
      trace := [Fire(now)];
      FirstStep(start, now);
      ghost var all := trace + BatchSteps(Abs(), script);
      for i := 0 to |expired|
        invariant Valid() && Legal(start, trace) && Abs() == Run(start, trace) && Calls(trace) == i
        invariant callingExpiredTimers && batch == expired && next == i && batchTime == now
        invariant trace + BatchSteps(Abs(), script) == all
      {
        trace := RunRound(i, script, start, trace);
      }
      EndBatch(expired, now, clock);
      trace := Extended(start, trace, Finish(clock));
    }

    method BeginBatch(t: int) returns (expired: seq<Entry>)
      requires Valid() && !callingExpiredTimers
      modifies this
      ensures Valid() && Abs() == Next(old(Abs()), Fire(t)) && expired == batch
      ensures callingExpiredTimers && next == 0 && batchTime == t
      ensures |expired| == ExpiredCount(old(Abs()), t)
    {
      hide Inv, Next, ExpiredCount, Addrs;
      NextIs(Abs(), Fire(t));
      expired := GetExpired(t);
      ExpiredIsPrefix(expired, timers, old(timers));
      if timerfd.Armed? && timerfd.deadline <= t {
        timerfd := Disarmed;
      }
      callingExpiredTimers := true;
      cancelingTimers := {};
      batch, next, batchTime := expired, 0, t;
    }

    /** it.second->run(), up to what the callback does. */
    method RunCallback()
      requires Valid() && callingExpiredTimers && next < |batch|
      modifies this`ran, this`next
      ensures Valid() && Abs() == Next(old(Abs()), Call)
      ensures next == old(next) + 1 && batch == old(batch) && batchTime == old(batchTime) && callingExpiredTimers
    {
      hide Inv, Next;
      NextIs(Abs(), Call);
      ran := ran + [heap[batch[next].timer].sequence];
      next := next + 1;
    }

    /** A callback, and what it does to the queue. */
    method RunRound(i: nat, script: seq<seq<Op>>, ghost start: Queue, ghost before: seq<Action>)
      returns (ghost trace: seq<Action>)
      requires Inv(start) && Legal(start, before) && Valid() && Abs() == Run(start, before)
      requires callingExpiredTimers && i == next < |batch|
      modifies this
      ensures Valid() && Legal(start, trace) && Abs() == Run(start, trace) && Calls(trace) == Calls(before) + 1
      ensures batch == old(batch) && next == old(next) + 1 && batchTime == old(batchTime) && callingExpiredTimers
      ensures trace + BatchSteps(Abs(), script) == before + BatchSteps(old(Abs()), script)
    {
      hide Inv, Run, Legal, Calls, Next, BatchSteps, AllSteps, AfterOps;
      BatchUnfolds(Abs(), script, before);
      RunCallback();
      trace := Extended(start, before, Call);
      trace := RunOps(Part(script, i), start, trace);
    }

    method EndBatch(expired: seq<Entry>, now: int, clock: int)
      requires Valid() && callingExpiredTimers && next == |batch| && expired == batch && now == batchTime
      modifies this
      ensures Valid() && Abs() == Next(old(Abs()), Finish(clock))
    {
      hide Inv, Next, Consistent, Afterwards;
      NextIs(Abs(), Finish(clock));
      callingExpiredTimers := false;
      next := 0;
      Reset(expired, now, clock);
    }

    method DoOp(op: Op, ghost start: Queue, ghost before: seq<Action>) returns (ghost trace: seq<Action>)
      requires Inv(start) && Legal(start, before) && Valid() && Abs() == Run(start, before)
      modifies this
      ensures Valid() && Legal(start, trace) && Abs() == Run(start, trace) && Abs() == AfterOp(old(Abs()), op)
      ensures trace == before + OpSteps(old(Abs()), op) && Calls(trace) == Calls(before)
    {
      hide Inv, Run, Legal, Calls, Next;
      match op {
        case AddOp(a, when, interval, clock) =>
          trace := before;
          if a !in heap && a < UINTPTR_MAX {
            var id := NewTimer(a, when, interval);
            trace := Extended(start, trace, Create(a, when, interval));
            AddTimerInLoop(a, clock);
            trace := Extended(start, trace, Add(a, clock));
          }
        case CancelOp(id) =>
          CancelInLoop(id);
          trace := Extended(start, before, Cancel(id));
      }
    }

    /** What one callback does to the queue. */
    method RunOps(ops: seq<Op>, ghost start: Queue, ghost before: seq<Action>) returns (ghost trace: seq<Action>)
      requires Inv(start) && Legal(start, before) && Valid() && Abs() == Run(start, before)
      modifies this
      ensures Valid() && Legal(start, trace) && Abs() == Run(start, trace) && Abs() == AfterOps(old(Abs()), ops)
      ensures trace == before + AllSteps(old(Abs()), ops) && Calls(trace) == Calls(before)
    {
      hide Inv, Run, Legal, Calls, AfterOp, OpSteps;
      trace := before;
      for i := 0 to |ops|
        invariant Valid() && Legal(start, trace) && Abs() == Run(start, trace)
        invariant AfterOps(Abs(), ops[i..]) == AfterOps(old(Abs()), ops)
        invariant trace + AllSteps(Abs(), ops[i..]) == before + AllSteps(old(Abs()), ops)
        invariant Calls(trace) == Calls(before)
      {
        assert ops[i..][0] == ops[i] && ops[i..][1..] == ops[i + 1..];
        trace := DoOp(ops[i], start, trace);
      }
    }
  }

  lemma BatchUnfolds(q: Queue, script: seq<seq<Op>>, before: seq<Action>)
    requires Inv(q) && q.calling && q.next < |q.batch|
    ensures var c := Next(q, Call); var ops := Part(script, q.next);
      && c.calling
      && before + BatchSteps(q, script) == before + [Call] + AllSteps(c, ops) + BatchSteps(AfterOps(c, ops), script)
  {
    var c := Next(q, Call);
    var ops := Part(script, q.next);
    assert c.calling;
    hide Inv, Next, AllSteps, AfterOps, Part;
    var steps, rest := AllSteps(c, ops), BatchSteps(AfterOps(c, ops), script);
    assert BatchSteps(q, script) == [Call] + steps + rest;
    hide BatchSteps;
    Regroup(before, [Call], steps, rest);
  }

  lemma Regroup(a: seq<Action>, b: seq<Action>, c: seq<Action>, d: seq<Action>)
    ensures a + (b + c + d) == a + b + c + d
  {
  }

  /** The trace with one more action. */
  ghost function Extended(q: Queue, trace: seq<Action>, act: Action): (longer: seq<Action>)
    requires Inv(q) && Legal(q, trace) && Enabled(Run(q, trace), act)
    ensures Legal(q, longer) && Run(q, longer) == Next(Run(q, trace), act)
    ensures longer == trace + [act] && Calls(longer) == Calls(trace) + (if act.Call? then 1 else 0)
  {
    RunThen(q, trace, act);
    CallsThen(trace, act);
    trace + [act]
  }

  lemma ExpiredIsPrefix(expired: seq<Entry>, rest: seq<Entry>, all: seq<Entry>)
    requires expired + rest == all
    ensures expired == all[..|expired|] && rest == all[|expired|..]
  {
  }

  lemma FirstStep(q: Queue, now: int)
    requires Inv(q) && !q.calling
    ensures Legal(q, [Fire(now)]) && Run(q, [Fire(now)]) == Next(q, Fire(now))
    ensures Calls([Fire(now)]) == 0
  {
    hide Inv, Next;
    RunThen(q, [], Fire(now));
    CallsThen([], Fire(now));
    assert [] + [Fire(now)] == [Fire(now)];
  }
}
