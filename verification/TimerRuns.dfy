/** What runs of the timer queue call back: when, how often, and what a cancel in the middle of a batch changes. */
module TimerRuns {
  import opened TimerQueues

  // ---- The batch while it runs ----

  /** The timers of the batch are live and were due when it began. */
  ghost predicate BatchDue(q: Queue) {
    forall i :: 0 <= i < |q.batch| ==>
      && q.batch[i].when <= q.now
      && q.batch[i].timer in q.heap && q.heap[q.batch[i].timer].expiration == q.batch[i].when
  }

  /** A cancel deletes no timer of the batch. */
  lemma CancelSparesBatch(q: Queue, id: Key, i: nat)
    requires Inv(q) && i < |q.batch|
    ensures var a := q.batch[i].timer; var r := Next(q, Cancel(id));
      a in q.heap && a in r.heap && r.heap[a] == q.heap[a]
  {
    BatchMember(q, i);
    if id in q.active {
      assert Queued(q, id.timer);
    }
    hide Keyed, Numbered, Addrs;
  }

  /** Until it ends, no step touches the batch or its timers. */
  lemma BatchStays(q: Queue, act: Action, i: nat)
    requires Inv(q) && Enabled(q, act) && !act.Fire? && !act.Finish? && i < |q.batch|
    ensures var r := Next(q, act); var a := q.batch[i].timer;
      r.batch == q.batch && r.now == q.now && a in q.heap && a in r.heap && r.heap[a] == q.heap[a]
  {
    BatchMember(q, i);
    if act.Cancel? {
      CancelSparesBatch(q, act.id, i);
    }
    hide Inv, Inserted, Erased;
  }

  lemma StepKeepsDue(q: Queue, act: Action)
    requires Inv(q) && Enabled(q, act) && BatchDue(q)
    ensures BatchDue(Next(q, act))
  {
    if act.Finish? {
      hide Inv, Next;
      FinishEmpties(q, act.clock);
    } else if act.Fire? {
      FiredAreDue(q, act.clock);
      hide Inv, BatchDue, Fired;
    } else {
      OthersKeepDue(q, act);
    }
  }

  lemma OthersKeepDue(q: Queue, act: Action)
    requires Inv(q) && Enabled(q, act) && BatchDue(q) && !act.Fire? && !act.Finish?
    ensures BatchDue(Next(q, act))
  {
    hide Inv, Next;
    var r := Next(q, act);
    SameBatch(q, act);
    forall i | 0 <= i < |r.batch|
      ensures r.batch[i].when <= r.now && r.batch[i].timer in r.heap
      ensures r.heap[r.batch[i].timer].expiration == r.batch[i].when
    {
      BatchStays(q, act, i);
    }
  }

  lemma SameBatch(q: Queue, act: Action)
    requires Inv(q) && Enabled(q, act) && !act.Fire? && !act.Finish?
    ensures var r := Next(q, act);
      && r.batch == q.batch && r.now == q.now && r.calling == q.calling
      && r.next == (if act.Call? then q.next + 1 else q.next)
  {
    hide Inv, Inserted, Erased;
  }

  lemma FinishEmpties(q: Queue, clock: int)
    requires Inv(q) && Enabled(q, Finish(clock))
    ensures Next(q, Finish(clock)).batch == []
  {
    hide Consistent, ResetAll;
    FinishKeeps(q, clock);
  }

  lemma FiredAreDue(q: Queue, now: int)
    requires Inv(q) && !q.calling
    ensures BatchDue(Fired(q, now))
  {
    ExpiredExactly(q, now);
    var k := ExpiredCount(q, now);
    forall i | 0 <= i < k
      ensures q.timers[i].when <= now && q.timers[i].timer in q.heap
      ensures q.heap[q.timers[i].timer].expiration == q.timers[i].when
    {
      assert q.timers[i] in q.timers;
    }
    hide Inv, Keyed, ExpiredCount;
  }

  lemma {:induction false} RunKeepsDue(q: Queue, acts: seq<Action>)
    requires Inv(q) && Legal(q, acts) && BatchDue(q)
    ensures BatchDue(Run(q, acts))
    decreases |acts|
  {
    if |acts| == 0 {
    } else {
      StepKeepsDue(q, acts[0]);
      hide Inv, Next, BatchDue;
      RunKeepsDue(Next(q, acts[0]), acts[1..]);
    }
  }

  /** No callback runs before its time: whenever one is next, its timer expires no later than the time that
      handleRead read. */
  lemma NeverEarly(acts: seq<Action>)
    requires LegalRun(acts) && Enabled(Reached(acts), Call)
    ensures var q := Reached(acts); var a := q.batch[q.next].timer;
      a in q.heap && q.heap[a].expiration <= q.now
  {
    EmptyInv();
    RunKeepsDue(EMPTY, acts);
    hide Run, Legal, Inv;
  }

  // ---- A one-shot timer runs once ----

  lemma StepCreates(q: Queue, act: Action)
    requires Inv(q) && Enabled(q, act) && forall s :: s in q.ran ==> s <= q.created
    ensures forall s :: s in Next(q, act).ran ==> s <= Next(q, act).created
  {
    if act.Call? {
      BatchMember(q, q.next);
    } else if act.Finish? {
      FinishKeeps(q, act.clock);
      ResetAllKeepsFlags(q.(calling := false, next := 0));
    }
    hide Consistent, ResetAll, Inserted, Erased;
  }

  lemma {:induction false} RanWasCreated(q: Queue, acts: seq<Action>)
    requires Inv(q) && Legal(q, acts) && forall s :: s in q.ran ==> s <= q.created
    ensures forall s :: s in Run(q, acts).ran ==> s <= Run(q, acts).created
    decreases |acts|
  {
    if |acts| == 0 {
    } else {
      StepCreates(q, acts[0]);
      hide Inv, Next;
      RanWasCreated(Next(q, acts[0]), acts[1..]);
    }
  }

  function Runs(q: Queue, s: nat): nat {
    multiset(q.ran)[s]
  }

  /** The one-shot timer `s` at `a` has not run, or has run in the batch still going on, or is deleted. */
  ghost predicate AtMostOnce(q: Queue, a: Addr, s: nat) {
    && Runs(q, s) <= 1
    && (|| s in q.freed
        || (&& a in q.heap && q.heap[a].sequence == s && q.heap[a].interval == 0
            && (Runs(q, s) == 1 ==> exists i :: 0 <= i < q.next <= |q.batch| && q.batch[i].timer == a)))
  }

  lemma OnceCalled(q: Queue, a: Addr, s: nat)
    requires Inv(q) && Enabled(q, Call) && AtMostOnce(q, a, s)
    ensures AtMostOnce(Next(q, Call), a, s)
  {
    var b := q.batch[q.next].timer;
    BatchMember(q, q.next);
    LiveNotFreed(q, b);
    var r := Next(q, Call);
    assert multiset(r.ran) == multiset(q.ran) + multiset{q.heap[b].sequence};
    if q.heap[b].sequence == s {
      assert a == b;
      assert r.batch[q.next].timer == a && q.next < r.next <= |r.batch|;
    }
    hide Keyed, Agree, Addrs, Live;
  }

  lemma OnceFinished(q: Queue, clock: int, a: Addr, s: nat)
    requires Inv(q) && Enabled(q, Finish(clock)) && AtMostOnce(q, a, s)
    ensures AtMostOnce(Next(q, Finish(clock)), a, s)
  {
    hide Inv, Consistent, ResetAll;
    var w := q.(calling := false, next := 0);
    FinishIs(q, clock);
    FinishKeeps(q, clock);
    ResetAllKeepsFlags(w);
    if s !in q.freed {
      OnceReset(q, w, a, s);
    }
    hide Next;
  }

  /** reset deletes a one-shot timer of the batch, and leaves any other alone. */
  lemma OnceReset(q: Queue, w: Queue, a: Addr, s: nat)
    requires Consistent(w) && w == q.(calling := false, next := 0) && AtMostOnce(q, a, s) && s !in q.freed
    ensures var r := ResetAll(w);
      s in r.freed || (Runs(q, s) == 0 && a in r.heap && r.heap[a] == q.heap[a])
  {
    hide Consistent, ResetAll;
    ResetAllOutcome(w, a);
    if Runs(q, s) == 1 {
      var i :| 0 <= i < q.next <= |q.batch| && q.batch[i].timer == a;
      assert q.batch[i] in q.batch;
    }
  }

  lemma OnceCancelled(q: Queue, id: Key, a: Addr, s: nat)
    requires Inv(q) && AtMostOnce(q, a, s)
    ensures AtMostOnce(Next(q, Cancel(id)), a, s)
  {
    CancelKeeps(q, id);
    hide Inv, Erased;
  }

  lemma OnceStep(q: Queue, act: Action, a: Addr, s: nat)
    requires Inv(q) && Enabled(q, act) && AtMostOnce(q, a, s)
    ensures AtMostOnce(Next(q, act), a, s)
  {
    match act
    case Call => OnceCalled(q, a, s);
    case Finish(clock) => OnceFinished(q, clock, a, s);
    case Cancel(id) => OnceCancelled(q, id, a, s);
    case Create(_, _, _) => hide Consistent, Inserted;
    case Add(_, _) => hide Consistent, Inserted;
    case Fire(_) => hide Consistent, Addrs;
  }

  lemma {:induction false} OnceRun(q: Queue, acts: seq<Action>, a: Addr, s: nat)
    requires Inv(q) && Legal(q, acts) && AtMostOnce(q, a, s)
    ensures AtMostOnce(Run(q, acts), a, s)
    decreases |acts|
  {
    if |acts| == 0 {
    } else {
      OnceStep(q, acts[0], a, s);
      hide Inv, Next, AtMostOnce;
      OnceRun(Next(q, acts[0]), acts[1..], a, s);
    }
  }

  lemma OnceCreated(q: Queue, a: Addr, when: int)
    requires Inv(q) && Enabled(q, Create(a, when, 0)) && forall s :: s in q.ran ==> s <= q.created
    ensures var r := Next(q, Create(a, when, 0));
      a in r.heap && r.heap[a].sequence == q.created + 1 && AtMostOnce(r, a, q.created + 1)
  {
    hide Inv;
    assert q.created + 1 !in q.ran;
  }

  lemma ReachedRan(before: seq<Action>)
    requires LegalRun(before)
    ensures forall s :: s in Reached(before).ran ==> s <= Reached(before).created
  {
    EmptyInv();
    RanWasCreated(EMPTY, before);
    hide Run, Legal, Inv;
  }

  /** The callback of a timer that does not repeat runs at most once, whatever comes before and after. */
  lemma OneShotRunsOnce(before: seq<Action>, a: Addr, when: int, after: seq<Action>)
    requires LegalRun(before) && Enabled(Reached(before), Create(a, when, 0))
    requires Legal(Next(Reached(before), Create(a, when, 0)), after)
    ensures var q := Next(Reached(before), Create(a, when, 0));
      a in q.heap && Runs(Run(q, after), q.heap[a].sequence) <= 1
  {
    hide Next, Inv, Run, Legal, LegalRun, Reached;
    ReachedRan(before);
    OnceCreated(Reached(before), a, when);
    OnceRun(Next(Reached(before), Create(a, when, 0)), after, a, Reached(before).created + 1);
  }

  // ---- A cancel in the middle of a batch ----

  /** The sequence numbers of the batch's callbacks from the `k`-th on. */
  function Due(q: Queue, k: nat): seq<nat>
    requires k <= |q.batch| && forall i :: 0 <= i < |q.batch| ==> q.batch[i].timer in q.heap
    decreases |q.batch| - k
  {
    if k == |q.batch| then [] else [q.heap[q.batch[k].timer].sequence] + Due(q, k + 1)
  }

  lemma BatchLives(q: Queue)
    requires Inv(q)
    ensures forall i :: 0 <= i < |q.batch| ==> q.batch[i].timer in q.heap
  {
    forall i | 0 <= i < |q.batch|
      ensures q.batch[i].timer in q.heap
    {
      BatchMember(q, i);
    }
  }

  lemma {:induction false} SameDue(q: Queue, r: Queue, k: nat)
    requires k <= |q.batch| && r.batch == q.batch
    requires forall i :: 0 <= i < |q.batch| ==>
      q.batch[i].timer in q.heap && q.batch[i].timer in r.heap && r.heap[q.batch[i].timer] == q.heap[q.batch[i].timer]
    ensures Due(r, k) == Due(q, k)
    decreases |q.batch| - k
  {
    if k < |q.batch| {
      SameDue(q, r, k + 1);
    }
  }

  lemma AllStay(q: Queue, act: Action)
    requires Inv(q) && q.calling && Enabled(q, act) && !act.Finish?
    ensures var r := Next(q, act);
      && r.calling && r.batch == q.batch && q.next <= |q.batch| && r.next <= |r.batch| && r.now == q.now
      && r.next == (if act.Call? then q.next + 1 else q.next)
      && forall i :: 0 <= i < |q.batch| ==>
           && q.batch[i].timer in q.heap && q.batch[i].timer in r.heap
           && r.heap[q.batch[i].timer] == q.heap[q.batch[i].timer]
  {
    SameBatch(q, act);
    forall i | 0 <= i < |q.batch|
      ensures q.batch[i].timer in q.heap && q.batch[i].timer in Next(q, act).heap
      ensures Next(q, act).heap[q.batch[i].timer] == q.heap[q.batch[i].timer]
    {
      BatchStays(q, act, i);
    }
    hide Next, Consistent;
  }

  /** What has run and what is due in the batch stay the same while it runs. */
  lemma DueStep(q: Queue, act: Action)
    requires Inv(q) && q.calling && Enabled(q, act) && !act.Finish?
    ensures var r := Next(q, act);
      && r.calling && r.batch == q.batch && q.next <= |q.batch| && r.next <= |r.batch| && r.now == q.now
      && (forall i :: 0 <= i < |q.batch| ==> q.batch[i].timer in q.heap && q.batch[i].timer in r.heap)
      && r.ran + Due(r, r.next) == q.ran + Due(q, q.next)
  {
    hide Inv, Next;
    var r := Next(q, act);
    AllStay(q, act);
    SameDue(q, r, r.next);
    DueRan(q, act);
    if act.Call? {
      assert Due(q, q.next) == [q.heap[q.batch[q.next].timer].sequence] + Due(q, q.next + 1);
    }
  }

  lemma DueRan(q: Queue, act: Action)
    requires Inv(q) && q.calling && Enabled(q, act) && !act.Finish?
    ensures act.Call? ==> q.batch[q.next].timer in q.heap
    ensures Next(q, act).ran == q.ran + (if act.Call? then [q.heap[q.batch[q.next].timer].sequence] else [])
  {
    BatchLives(q);
    NextIs(q, act);
    hide Inv, Next, Inserted, Erased, Addrs, Fired;
  }

  lemma {:induction false} DueRun(q: Queue, acts: seq<Action>)
    requires Inv(q) && q.calling && Legal(q, acts) && forall act :: act in acts ==> !act.Finish?
    ensures var r := Run(q, acts);
      && r.calling && r.batch == q.batch && q.next <= |q.batch| && r.next <= |r.batch| && r.now == q.now
      && (forall i :: 0 <= i < |q.batch| ==> q.batch[i].timer in q.heap && q.batch[i].timer in r.heap)
      && r.ran + Due(r, r.next) == q.ran + Due(q, q.next)
    decreases |acts|
  {
    if |acts| == 0 {
      BatchLives(q);
      hide Consistent;
    } else {
      assert acts[0] in acts;
      DueStep(q, acts[0]);
      hide Inv, Next, Due;
      DueRun(Next(q, acts[0]), acts[1..]);
    }
  }

  lemma {:induction false} DueExactly(q: Queue, k: nat, i: nat)
    requires Inv(q) && k <= |q.batch| && i < |q.batch|
    requires forall j :: 0 <= j < |q.batch| ==> q.batch[j].timer in q.heap
    ensures q.heap[q.batch[i].timer].sequence in Due(q, k) <==> i >= k
    decreases |q.batch| - k
  {
    if k < |q.batch| {
      DueExactly(q, k + 1, i);
      if k != i {
        OtherSequence(q, i, k);
      }
      hide Inv;
    }
  }

  lemma OtherSequence(q: Queue, i: nat, k: nat)
    requires Inv(q) && i < |q.batch| && k < |q.batch| && i != k
    requires q.batch[i].timer in q.heap && q.batch[k].timer in q.heap
    ensures q.heap[q.batch[i].timer].sequence != q.heap[q.batch[k].timer].sequence
  {
    hide Keyed, Agree, Addrs;
  }

  /** Every timer that is due at the time read, and no other, is called back once, in order, whatever the callbacks
      add or cancel. */
  lemma BatchRunsAll(q: Queue, now: int, acts: seq<Action>)
    requires Inv(q) && !q.calling
    requires Legal(Next(q, Fire(now)), acts) && forall act :: act in acts ==> !act.Finish?
    requires var r := Run(Next(q, Fire(now)), acts); r.next == |r.batch|
    ensures var b := Next(q, Fire(now));
      && b.batch == q.timers[..ExpiredCount(q, now)] && Expired(q.timers, ExpiredCount(q, now), now)
      && Run(b, acts).batch == b.batch && Run(b, acts).now == now
      && (forall i :: 0 <= i < |b.batch| ==> b.batch[i].timer in b.heap)
      && Run(b, acts).ran == q.ran + Due(b, 0)
  {
    var b := Next(q, Fire(now));
    assert && b.calling && b.next == 0 && b.now == now && b.ran == q.ran
           && b.batch == q.timers[..ExpiredCount(q, now)] by {
      hide Inv, ExpiredCount, Addrs;
    }
    SetsAgree(q);
    ExpiredExactly(q, now);
    hide Inv, Next, Run, Legal, ExpiredCount, Expired, Keyed, Agree, Owned;
    BatchLives(b);
    DueRun(b, acts);
    var r := Run(b, acts);
    assert Due(r, r.next) == [];
  }

  /** Cancelling a timer of the running batch does not stop the callback it still has coming: by the end of the batch
      it has run again if and only if its turn had not come. */
  lemma CancelledStillRunsIff(q: Queue, i: nat, during: seq<Action>)
    requires Inv(q) && q.calling && i < |q.batch| && q.batch[i].timer in q.heap
    requires var id := KeyOf(q, q.batch[i].timer);
      && Legal(Next(q, Cancel(id)), during) && (forall act :: act in during ==> !act.Finish?)
      && var r := CancelThen(q, id, during); r.next == |r.batch|
    ensures var id := KeyOf(q, q.batch[i].timer); var r := CancelThen(q, id, during);
      q.ran <= r.ran && (id.sequence in r.ran[|q.ran|..] <==> i >= q.next)
  {
    var id := KeyOf(q, q.batch[i].timer);
    var c := Next(q, Cancel(id));
    DueStep(q, Cancel(id));
    DueRan(q, Cancel(id));
    DueRun(c, during);
    DueExactly(q, q.next, i);
    var r := CancelThen(q, id, during);
    assert r.ran == q.ran + Due(q, q.next) by {
      assert Due(r, r.next) == [];
      hide Inv, Next, Run, Legal, CancelThen;
    }
    hide Inv, Next, Run, Legal, CancelThen, Due;
    assert r.ran[|q.ran|..] == Due(q, q.next);
  }

  // ---- A timer is what addTimer asked for ----

  /** Timer `s` at `a`, made for `when` and `interval`: deleted, or live with that interval, and due at `when` until
      its first callback. */
  ghost predicate AsAsked(q: Queue, a: Addr, s: nat, when: int, interval: nat) {
    || s in q.freed
    || (&& a in q.heap && q.heap[a].sequence == s && q.heap[a].interval == interval
        && (s !in q.ran ==> q.heap[a].expiration == when)
        && (forall i :: 0 <= i < q.next && i < |q.batch| && q.batch[i].timer == a ==> s in q.ran))
  }

  lemma CalledAsAsked(q: Queue, a: Addr, s: nat, when: int, interval: nat)
    requires Inv(q) && Enabled(q, Call) && AsAsked(q, a, s, when, interval)
    ensures AsAsked(Next(q, Call), a, s, when, interval)
  {
    BatchMember(q, q.next);
    var r := Next(q, Call);
    assert q.heap[q.batch[q.next].timer].sequence in r.ran;
    hide Consistent;
  }

  /** reset gives the timers of the batch new expirations, but they have all run by then. */
  lemma FinishedAsAsked(q: Queue, clock: int, a: Addr, s: nat, when: int, interval: nat)
    requires Inv(q) && Enabled(q, Finish(clock)) && AsAsked(q, a, s, when, interval)
    ensures AsAsked(Next(q, Finish(clock)), a, s, when, interval)
  {
    hide Inv, Consistent, ResetAll;
    var w := q.(calling := false, next := 0);
    FinishIs(q, clock);
    FinishKeeps(q, clock);
    ResetAllKeepsFlags(w);
    if s !in q.freed {
      ResetAllOutcome(w, a);
      if a in Addrs(q.batch) {
        var e :| e in q.batch && e.timer == a;
        var i :| 0 <= i < |q.batch| && q.batch[i] == e;
      }
    }
    FinishEmpties(q, clock);
    hide Next;
  }

  lemma StepAsAsked(q: Queue, act: Action, a: Addr, s: nat, when: int, interval: nat)
    requires Inv(q) && Enabled(q, act) && AsAsked(q, a, s, when, interval)
    ensures AsAsked(Next(q, act), a, s, when, interval)
  {
    match act
    case Call => CalledAsAsked(q, a, s, when, interval);
    case Finish(clock) => FinishedAsAsked(q, clock, a, s, when, interval);
    case Cancel(id) => CancelledAsAsked(q, id, a, s, when, interval);
    case Create(_, _, _) => hide Consistent, Inserted;
    case Add(_, _) => hide Consistent, Inserted;
    case Fire(_) => hide Consistent, Addrs;
  }

  lemma CancelledAsAsked(q: Queue, id: Key, a: Addr, s: nat, when: int, interval: nat)
    requires Inv(q) && AsAsked(q, a, s, when, interval)
    ensures AsAsked(Next(q, Cancel(id)), a, s, when, interval)
  {
    CancelKeeps(q, id);
    hide Inv, Erased;
  }

  lemma {:induction false} RunAsAsked(q: Queue, acts: seq<Action>, a: Addr, s: nat, when: int, interval: nat)
    requires Inv(q) && Legal(q, acts) && AsAsked(q, a, s, when, interval)
    ensures AsAsked(Run(q, acts), a, s, when, interval)
    decreases |acts|
  {
    if |acts| == 0 {
    } else {
      StepAsAsked(q, acts[0], a, s, when, interval);
      hide Inv, Next, AsAsked;
      RunAsAsked(Next(q, acts[0]), acts[1..], a, s, when, interval);
    }
  }

  lemma CreatedAsAsked(q: Queue, a: Addr, when: int, interval: nat)
    requires Inv(q) && Enabled(q, Create(a, when, interval))
    ensures AsAsked(Next(q, Create(a, when, interval)), a, q.created + 1, when, interval)
  {
    BatchLives(q);
    hide Consistent;
  }

  lemma ReachedDue(before: seq<Action>)
    requires LegalRun(before)
    ensures BatchDue(Reached(before))
  {
    EmptyInv();
    RunKeepsDue(EMPTY, before);
    hide Run, Legal, Inv;
  }

  /** The first callback of a timer comes in a batch that began no earlier than addTimer was told. */
  lemma FirstCallNotBefore(before: seq<Action>, a: Addr, when: int, interval: nat, after: seq<Action>)
    requires LegalRun(before) && Enabled(Reached(before), Create(a, when, interval))
    requires Legal(Next(Reached(before), Create(a, when, interval)), after)
    requires Enabled(Run(Next(Reached(before), Create(a, when, interval)), after), Call)
    ensures var s := Reached(before).created + 1;
      var q := Run(Next(Reached(before), Create(a, when, interval)), after);
      && q.batch[q.next].timer in q.heap
      && (q.heap[q.batch[q.next].timer].sequence == s && s !in q.ran ==> when <= q.now)
  {
    var start := Next(Reached(before), Create(a, when, interval));
    var s := Reached(before).created + 1;
    ReachedDue(before);
    StepKeepsDue(Reached(before), Create(a, when, interval));
    CreatedAsAsked(Reached(before), a, when, interval);
    hide Next, Run, Legal, LegalRun, Reached, Inv;
    RunKeepsDue(start, after);
    RunAsAsked(start, after, a, s, when, interval);
    CallIsDue(Run(start, after), a, s, when, interval);
  }

  lemma CallIsDue(q: Queue, a: Addr, s: nat, when: int, interval: nat)
    requires Inv(q) && Enabled(q, Call) && BatchDue(q) && AsAsked(q, a, s, when, interval)
    ensures q.batch[q.next].timer in q.heap
    ensures q.heap[q.batch[q.next].timer].sequence == s && s !in q.ran ==> when <= q.now
  {
    LiveNotFreed(q, q.batch[q.next].timer);
    hide Keyed, Agree, Owned, Live;
  }

  /** Timer `s` at `a` is live and not cancelled, out of addTimer's hands if `added`; or it was to run once, and has. */
  ghost predicate Serves(q: Queue, a: Addr, s: nat, interval: nat, added: bool) {
    || (interval == 0 && s in q.ran && s in q.freed)
    || (&& a in q.heap && q.heap[a].sequence == s && q.heap[a].interval == interval
        && (a in Addrs(q.batch) ==> Key(a, s) !in q.canceling)
        && (added ==> a !in q.transit))
  }

  predicate AddOf(act: Action, a: Addr) {
    act.Add? && act.timer == a
  }

  lemma NotFreed(q: Queue, a: Addr)
    requires Inv(q) && a in q.heap
    ensures q.heap[a].sequence !in q.freed
  {
    LiveNotFreed(q, a);
  }

  lemma FinishedServes(q: Queue, clock: int, a: Addr, s: nat, when: int, interval: nat, added: bool)
    requires Inv(q) && Enabled(q, Finish(clock)) && AsAsked(q, a, s, when, interval) && Serves(q, a, s, interval, added)
    ensures Serves(Next(q, Finish(clock)), a, s, interval, added)
  {
    hide Inv, Consistent, ResetAll;
    var w := q.(calling := false, next := 0);
    FinishIs(q, clock);
    FinishKeeps(q, clock);
    ResetAllKeepsFlags(w);
    FinishEmpties(q, clock);
    if a in q.heap && q.heap[a].sequence == s {
      NotFreed(q, a);
      ResetAllOutcome(w, a);
      if a in Addrs(q.batch) {
        var e :| e in q.batch && e.timer == a;
        var i :| 0 <= i < |q.batch| && q.batch[i] == e;
      }
    }
    hide Next, Addrs, AsAsked;
  }

  /** Every step but the timer's own cancel. */
  lemma StepServes(q: Queue, act: Action, a: Addr, s: nat, when: int, interval: nat, added: bool)
    requires Inv(q) && Enabled(q, act) && act != Cancel(Key(a, s))
    requires AsAsked(q, a, s, when, interval) && Serves(q, a, s, interval, added)
    ensures Serves(Next(q, act), a, s, interval, added || AddOf(act, a))
  {
    match act
    case Call => hide Consistent, Addrs, AsAsked;
    case Finish(clock) =>
      FinishedServes(q, clock, a, s, when, interval, added);
      hide Inv, Serves, AsAsked, Next;
    case Cancel(id) => CancelledServes(q, id, a, s, interval, added);
    case Create(_, _, _) => hide Consistent, Inserted, AsAsked, Addrs;
    case Add(_, _) => hide Consistent, Inserted, AsAsked, Addrs;
    case Fire(_) => hide Consistent, Addrs, AsAsked;
  }

  lemma CancelledServes(q: Queue, id: Key, a: Addr, s: nat, interval: nat, added: bool)
    requires Inv(q) && id != Key(a, s) && Serves(q, a, s, interval, added)
    ensures Serves(Next(q, Cancel(id)), a, s, interval, added)
  {
    if id in q.active {
      ActiveIsLive(q, id);
    }
    hide Consistent, Addrs, Erased;
  }

  lemma ActiveIsLive(q: Queue, id: Key)
    requires Inv(q) && id in q.active
    ensures id.timer in q.heap && q.heap[id.timer].sequence == id.sequence
  {
    hide Keyed, Owned, Numbered;
  }

  predicate Adds(acts: seq<Action>, a: Addr) {
    exists act :: act in acts && AddOf(act, a)
  }

  lemma {:induction false} RunServes(
          q: Queue, acts: seq<Action>, a: Addr, s: nat, when: int, interval: nat, added: bool)
    requires Inv(q) && Legal(q, acts) && Cancel(Key(a, s)) !in acts
    requires AsAsked(q, a, s, when, interval) && Serves(q, a, s, interval, added)
    ensures Serves(Run(q, acts), a, s, interval, added || Adds(acts, a))
    decreases |acts|
  {
    if |acts| == 0 {
    } else {
      assert acts[0] in acts && acts == [acts[0]] + acts[1..];
      StepServes(q, acts[0], a, s, when, interval, added);
      StepAsAsked(q, acts[0], a, s, when, interval);
      hide Inv, Next, AsAsked, Serves;
      RunServes(Next(q, acts[0]), acts[1..], a, s, when, interval, added || AddOf(acts[0], a));
    }
  }

  lemma CreatedServes(q: Queue, a: Addr, when: int, interval: nat)
    requires Inv(q) && Enabled(q, Create(a, when, interval))
    ensures Serves(Next(q, Create(a, when, interval)), a, q.created + 1, interval, false)
  {
    hide Keyed, Agree, Numbered, Addrs;
  }

  /** What a run leaves of a timer that addTimer made and nobody cancelled. */
  lemma RunFromCreate(q: Queue, a: Addr, when: int, interval: nat, after: seq<Action>)
    requires Inv(q) && Enabled(q, Create(a, when, interval)) && Legal(Next(q, Create(a, when, interval)), after)
    requires Cancel(Key(a, q.created + 1)) !in after
    ensures var r := Run(Next(q, Create(a, when, interval)), after);
      AsAsked(r, a, q.created + 1, when, interval) && Serves(r, a, q.created + 1, interval, Adds(after, a))
  {
    var s := q.created + 1;
    CreatedAsAsked(q, a, when, interval);
    CreatedServes(q, a, when, interval);
    hide Inv, Next, AsAsked, Serves, Run, Legal;
    RunAsAsked(Next(q, Create(a, when, interval)), after, a, s, when, interval);
    RunServes(Next(q, Create(a, when, interval)), after, a, s, when, interval, false);
  }

  /** Once addTimerInLoop has run, a timer that nobody cancelled waits for exactly the time it was made for, until the
      batch of its first callback. */
  lemma WaitsUntilAsked(q: Queue, a: Addr, when: int, interval: nat, after: seq<Action>)
    requires Inv(q) && Enabled(q, Create(a, when, interval)) && Legal(Next(q, Create(a, when, interval)), after)
    requires var s := q.created + 1;
      Cancel(Key(a, s)) !in after && Adds(after, a) && s !in Run(Next(q, Create(a, when, interval)), after).ran
    ensures var r := Run(Next(q, Create(a, when, interval)), after);
      && a in r.heap && KeyOf(r, a) == Key(a, q.created + 1)
      && (Entry(when, a) in r.timers || a in Addrs(r.batch))
  {
    RunFromCreate(q, a, when, interval, after);
    var r := Run(Next(q, Create(a, when, interval)), after);
    hide Next, Run, Legal, Adds;
    NotFreed(r, a);
    hide Keyed, Agree, Numbered, Addrs;
  }

  /** Timer `s` at `a` is back in both sets for `interval` after the batch, or without one is deleted. */
  predicate BackAsAsked(q: Queue, done: Queue, a: Addr, s: nat, interval: nat) {
    if interval > 0 then Entry(q.now + interval, a) in done.timers && Key(a, s) in done.active else s in done.freed
  }

  /** A batch that calls a repeating timer back, and nobody having cancelled it, puts it back for exactly the interval
      it was made with after the time of the batch; a timer without an interval is deleted. */
  lemma RepeatsAsAsked(q: Queue, a: Addr, when: int, interval: nat, after: seq<Action>, clock: int)
    requires Inv(q) && Enabled(q, Create(a, when, interval)) && Legal(Next(q, Create(a, when, interval)), after)
    requires Cancel(Key(a, q.created + 1)) !in after
    requires var r := Run(Next(q, Create(a, when, interval)), after);
      Enabled(r, Finish(clock)) && a in Addrs(r.batch) && a in r.heap && KeyOf(r, a) == Key(a, q.created + 1)
    ensures var r := Run(Next(q, Create(a, when, interval)), after);
      q.created + 1 in r.ran && BackAsAsked(r, Next(r, Finish(clock)), a, q.created + 1, interval)
  {
    hide Run, Legal, Adds, Next, Inv, Enabled, BackAsAsked, Addrs, AsAsked, Serves;
    RunFromCreate(q, a, when, interval, after);
    var r := Run(Next(q, Create(a, when, interval)), after);
    BatchHasRun(r, a, q.created + 1, when, interval, clock);
    RepeatStep(r, a, q.created + 1, when, interval, Adds(after, a), clock);
  }

  lemma BatchHasRun(q: Queue, a: Addr, s: nat, when: int, interval: nat, clock: int)
    requires Inv(q) && Enabled(q, Finish(clock)) && a in Addrs(q.batch) && a in q.heap && KeyOf(q, a) == Key(a, s)
    requires AsAsked(q, a, s, when, interval)
    ensures s in q.ran
  {
    NotFreed(q, a);
    hide Inv;
    var e :| e in q.batch && e.timer == a;
    var i :| 0 <= i < |q.batch| && q.batch[i] == e;
  }

  lemma RepeatStep(q: Queue, a: Addr, s: nat, when: int, interval: nat, added: bool, clock: int)
    requires Inv(q) && Enabled(q, Finish(clock)) && a in Addrs(q.batch) && a in q.heap && KeyOf(q, a) == Key(a, s)
    requires AsAsked(q, a, s, when, interval) && Serves(q, a, s, interval, added)
    ensures BackAsAsked(q, Next(q, Finish(clock)), a, s, interval)
  {
    hide Inv, Consistent, ResetAll, Addrs;
    NotFreed(q, a);
    var w := q.(calling := false, next := 0);
    FinishIs(q, clock);
    ResetAllOutcome(w, a);
    FinishEmpties(q, clock);
    assert Next(q, Finish(clock)) == Finished(q, clock);
    assert q.heap[a].interval == interval && (interval > 0 ==> Key(a, s) !in q.canceling);
    hide AsAsked, Serves;
    if interval > 0 {
      FinishTransit(q, clock);
      hide Finished;
      RestartedIsQueued(q, Next(q, Finish(clock)), a);
    }
    hide Next, Finished;
  }

  lemma FinishTransit(q: Queue, clock: int)
    requires Inv(q) && Enabled(q, Finish(clock))
    ensures Next(q, Finish(clock)).transit == q.transit
  {
    hide Consistent, ResetAll;
    FinishKeeps(q, clock);
    ResetAllKeepsFlags(q.(calling := false, next := 0));
  }

  lemma RestartedIsQueued(q: Queue, r: Queue, a: Addr)
    requires Inv(q) && Inv(r) && r.batch == [] && r.transit == q.transit && a in Addrs(q.batch) && a in r.heap
    ensures Entry(r.heap[a].expiration, a) in r.timers && KeyOf(r, a) in r.active
  {
    hide Keyed, Numbered;
  }
}
