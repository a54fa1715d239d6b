/** net/EventLoop.cpp: the functor queue and its wakeup, between one loop thread and any number of others.
    Every action is one atomic step: a critical section, a flag, or an eventfd call. */
module EventLoops {

  type Thread(==) = nat

  /** Who queued a functor: another thread, or the loop thread inside or outside an iteration of loop(). */
  datatype Origin = Other | Inside | Outside

  datatype Task = Task(functor: nat, origin: Origin)

  /** Where the loop thread is. `Handling(true)` has a wakeup channel whose handleRead has not run;
      `Running(left)` has the rest of the swapped vector to call. */
  datatype Pc =
    | Idle
    | Testing
    | Polling
    | Handling(wake: bool)
    | Swapping
    | Running(left: seq<Task>)

  /** `counter` is the eventfd; `waking` are the threads between their push or flag and their wakeup();
      `mustWake` says so of the loop thread. `queued` and `executed` list functors in lock and call order. */
  datatype Loop = Loop(
    pc: Pc, quit: bool, calling: bool, counter: nat, pending: seq<Task>,
    waking: set<Thread>, mustWake: bool, queued: seq<Task>, executed: seq<Task>)

  datatype Action =
    | ThreadPush(t: Thread, functor: nat)
    | ThreadQuit(t: Thread)
    | ThreadWake(t: Thread)
    | LoopPush(functor: nat)
    | LoopWake
    | LoopQuit
    | Enter
    | Test
    | PollReturns
    | ReadCounter
    | StartFunctors
    | Swap
    | CallFunctor
    | EndFunctors

  const CREATED := Loop(Idle, false, false, 0, [], {}, false, [], [])

  /** The loop thread runs user code: a callback, a functor, or the program around loop(). */
  predicate UserCode(s: Loop) {
    (s.pc.Handling? || s.pc.Running? || s.pc.Idle?) && !s.mustWake
  }

  predicate Enabled(s: Loop, a: Action) {
    match a
    case ThreadPush(t, _) => t !in s.waking
    case ThreadQuit(t) => t !in s.waking
    case ThreadWake(t) => t in s.waking
    case LoopPush(_) => UserCode(s)
    case LoopWake => s.mustWake
    case LoopQuit => UserCode(s)
    case Enter => s.pc == Idle && !s.mustWake
    case Test => s.pc == Testing
    case PollReturns => s.pc == Polling
    case ReadCounter => s.pc == Handling(true) && !s.mustWake
    case StartFunctors => s.pc == Handling(false) && !s.mustWake
    case Swap => s.pc == Swapping
    case CallFunctor => s.pc.Running? && s.pc.left != [] && !s.mustWake
    case EndFunctors => s.pc == Running([]) && !s.mustWake
  }

  function Pushed(s: Loop, task: Task): Loop {
    s.(pending := s.pending + [task], queued := s.queued + [task])
  }

  function Next(s: Loop, a: Action): (r: Loop)
    requires Enabled(s, a)
  {
    match a
    case ThreadPush(t, f) => Pushed(s, Task(f, Other)).(waking := s.waking + {t})
    case ThreadQuit(t) => s.(quit := true, waking := s.waking + {t})
    case ThreadWake(t) => s.(counter := s.counter + 1, waking := s.waking - {t})
    case LoopPush(f) => Pushed(s, Task(f, if s.pc.Idle? then Outside else Inside)).(mustWake := s.calling)
    case LoopWake => s.(counter := s.counter + 1, mustWake := false)
    case LoopQuit => s.(quit := true)
    case Enter => s.(pc := Testing, quit := false)
    case Test => s.(pc := if s.quit then Idle else Polling)
    case PollReturns => s.(pc := Handling(s.counter > 0))
    case ReadCounter => s.(pc := Handling(false), counter := 0)
    case StartFunctors => s.(pc := Swapping, calling := true)
    case Swap => s.(pc := Running(s.pending), pending := [])
    case CallFunctor => s.(pc := Running(s.pc.left[1..]), executed := s.executed + [s.pc.left[0]])
    case EndFunctors => s.(pc := Testing, calling := false)
  }

  // ---- Runs ----

  predicate Legal(s: Loop, acts: seq<Action>)
    decreases |acts|
  {
    |acts| == 0 || (Enabled(s, acts[0]) && Legal(Next(s, acts[0]), acts[1..]))
  }

  function Run(s: Loop, acts: seq<Action>): (r: Loop)
    requires Legal(s, acts)
    decreases |acts|
  {
    if |acts| == 0 then s else Run(Next(s, acts[0]), acts[1..])
  }

  // ---- Invariants ----

  function InHand(s: Loop): seq<Task> {
    if s.pc.Running? then s.pc.left else []
  }

  /** Somebody has told the loop, or is about to. */
  predicate Told(s: Loop) {
    s.counter > 0 || s.waking != {} || s.mustWake
  }

  /** A functor that some wakeup has to cover. */
  predicate Owed(s: Loop) {
    exists task :: task in s.pending && task.origin != Outside
  }

  predicate Inv(s: Loop) {
    && (s.calling <==> s.pc.Swapping? || s.pc.Running?)
    && (s.mustWake ==> s.pc.Running?)
    && (s.pc == Handling(true) ==> s.counter > 0)
    && (Owed(s) ==> s.pc.Handling? || s.pc.Swapping? || Told(s))
    && (s.pc.Polling? && s.quit ==> Told(s))
    && s.executed + InHand(s) + s.pending == s.queued
  }

  lemma OwedAfterPush(s: Loop, task: Task)
    ensures Owed(Pushed(s, task)) <==> Owed(s) || task.origin != Outside
  {
    var r := Pushed(s, task);
    if task.origin != Outside {
      assert task in r.pending;
    }
    if Owed(s) {
      var x :| x in s.pending && x.origin != Outside;
      assert x in r.pending;
    }
  }

  lemma StepKeepsOrder(s: Loop, a: Action)
    requires Inv(s) && Enabled(s, a)
    ensures var t := Next(s, a); t.executed + InHand(t) + t.pending == t.queued
  {
    match a
    case ThreadPush(_, f) =>
      assert s.executed + InHand(s) + (s.pending + [Task(f, Other)]) ==
        s.executed + InHand(s) + s.pending + [Task(f, Other)];
    case LoopPush(f) =>
      var task := Task(f, if s.pc.Idle? then Outside else Inside);
      assert s.executed + InHand(s) + (s.pending + [task]) == s.executed + InHand(s) + s.pending + [task];
    case Swap =>
      assert s.executed + [] + s.pending == s.executed + s.pending + [];
    case CallFunctor =>
      assert s.pc.left == [s.pc.left[0]] + s.pc.left[1..];
      assert s.executed + s.pc.left == s.executed + [s.pc.left[0]] + s.pc.left[1..];
    case _ =>
  }

  lemma StepKeepsInv(s: Loop, a: Action)
    requires Inv(s) && Enabled(s, a)
    ensures Inv(Next(s, a))
  {
    StepKeepsOrder(s, a);
    match a
    case ThreadPush(t, f) =>
      assert t in Next(s, a).waking;
    case ThreadQuit(t) =>
      assert t in Next(s, a).waking;
    case LoopPush(f) =>
      OwedAfterPush(s, Task(f, if s.pc.Idle? then Outside else Inside));
      assert Owed(Next(s, a)) == Owed(Pushed(s, Task(f, if s.pc.Idle? then Outside else Inside)));
    case _ =>
  }

  lemma {:induction false} RunKeepsInv(s: Loop, acts: seq<Action>)
    requires Inv(s) && Legal(s, acts)
    ensures Inv(Run(s, acts))
    decreases |acts|
  {
    if |acts| == 0 {
    } else {
      StepKeepsInv(s, acts[0]);
      RunKeepsInv(Next(s, acts[0]), acts[1..]);
    }
  }

  // ---- No lost wakeup ----

  /** Whenever the loop is about to block, every functor that another thread queued, or that the loop queued
      inside an iteration, and every quit since loop() began, has a wakeup counted or under way. */
  lemma NoLostWakeup(acts: seq<Action>)
    requires Legal(CREATED, acts)
    ensures var s := Run(CREATED, acts);
      s.pc.Polling? && (Owed(s) || s.quit) ==> s.counter > 0 || s.waking != {}
  {
    RunKeepsInv(CREATED, acts);
  }

  /** handleRead always finds the counter positive, so its read(2) delivers 8 bytes. */
  lemma CounterIsPositive(acts: seq<Action>)
    requires Legal(CREATED, acts)
    ensures var s := Run(CREATED, acts);
      Enabled(s, ReadCounter) ==> s.counter > 0
  {
    RunKeepsInv(CREATED, acts);
  }

  /** The loop sleeps on queued functors only when each of them was queued by the loop thread itself outside loop(). */
  lemma SleepsOnlyOnOutside(acts: seq<Action>)
    requires Legal(CREATED, acts)
    ensures var s := Run(CREATED, acts);
      s.pc.Polling? && s.counter == 0 && s.waking == {} ==>
        !s.quit && forall task :: task in s.pending ==> task.origin == Outside
  {
    RunKeepsInv(CREATED, acts);
  }

  /** No functor is ever queued outside loop() by the loop thread. */
  predicate NeverOutside(s: Loop, acts: seq<Action>)
    requires Legal(s, acts)
    decreases |acts|
  {
    |acts| == 0 || ((acts[0].LoopPush? ==> !s.pc.Idle?) && NeverOutside(Next(s, acts[0]), acts[1..]))
  }

  lemma {:induction false} QueuedInside(s: Loop, acts: seq<Action>)
    requires Legal(s, acts) && NeverOutside(s, acts) && forall task :: task in s.queued ==> task.origin != Outside
    ensures forall task :: task in Run(s, acts).queued ==> task.origin != Outside
    decreases |acts|
  {
    if |acts| == 0 {
    } else {
      QueuedInside(Next(s, acts[0]), acts[1..]);
    }
  }

  /** When the loop thread queues only from inside an iteration, it never blocks with functors waiting
      and no wakeup on its way. */
  lemma NeverSleepsOnFunctors(acts: seq<Action>)
    requires Legal(CREATED, acts) && NeverOutside(CREATED, acts)
    ensures var s := Run(CREATED, acts);
      s.pc.Polling? && s.pending != [] ==> s.counter > 0 || s.waking != {}
  {
    QueuedInside(CREATED, acts);
    RunKeepsInv(CREATED, acts);
    var s := Run(CREATED, acts);
    if s.pending != [] {
      assert s.pending[0] in s.queued by {
        assert s.queued[|s.executed + InHand(s)|] == s.pending[0];
      }
      assert s.pending[0] in s.pending;
    }
  }

  /** The loop thread is outside loop(). */
  predicate BeforeLoop(s: Loop) {
    s.pc == Idle && !s.mustWake && !s.calling
  }

  /** A functor that the loop thread queues before loop() does not wake the first poll, which sleeps on it if and
      only if nothing else has told the loop. */
  lemma OutsideQueueSleepsIff(s: Loop, functor: nat)
    requires BeforeLoop(s)
    ensures var acts := [LoopPush(functor), Enter, Test];
      Legal(s, acts) && var r := Run(s, acts);
      && r.pc == Polling && Task(functor, Outside) in r.pending
      && (r.counter == 0 && r.waking == {} <==> s.counter == 0 && s.waking == {})
  {
    var s1 := Next(s, LoopPush(functor));
    var s2 := Next(s1, Enter);
    var s3 := Next(s2, Test);
    ThreeSteps(s, LoopPush(functor), s1, Enter, s2, Test, s3);
  }

  lemma ThreeSteps(s: Loop, a: Action, s1: Loop, b: Action, s2: Loop, c: Action, s3: Loop)
    requires Enabled(s, a) && Next(s, a) == s1 && Enabled(s1, b) && Next(s1, b) == s2
    requires Enabled(s2, c) && Next(s2, c) == s3
    ensures Legal(s, [a, b, c]) && Run(s, [a, b, c]) == s3
  {
    hide Enabled, Next;
    assert [a, b, c][1..] == [b, c] && [b, c][1..] == [c] && [c][1..] == [];
    assert Legal(s2, [c]) && Run(s2, [c]) == s3;
    assert Legal(s1, [b, c]) && Run(s1, [b, c]) == s3;
  }

  /** A quit() that comes before loop(), from whatever thread, is lost: loop() clears the flag and goes on to poll. */
  lemma QuitBeforeLoopIsLost(s: Loop, quit: Action)
    requires BeforeLoop(s) && Enabled(s, quit) && (quit.ThreadQuit? || quit.LoopQuit?)
    ensures Next(s, quit).quit
    ensures Legal(s, [quit, Enter, Test])
    ensures var r := Run(s, [quit, Enter, Test]); r.pc == Polling && !r.quit
  {
    var s1 := Next(s, quit);
    var s2 := Next(s1, Enter);
    var s3 := Next(s2, Test);
    ThreeSteps(s, quit, s1, Enter, s2, Test, s3);
  }

  /** loop() does not return on the way. */
  predicate StaysInLoop(s: Loop, acts: seq<Action>)
    requires Legal(s, acts)
    decreases |acts|
  {
    |acts| == 0 || (!(acts[0].Test? && s.quit) && StaysInLoop(Next(s, acts[0]), acts[1..]))
  }

  /** loop() has not returned, but the flag is down. */
  predicate Loses(s: Loop, acts: seq<Action>) {
    Legal(s, acts) && StaysInLoop(s, acts) && !Run(s, acts).quit
  }

  lemma {:induction false} InsideStays(s: Loop, acts: seq<Action>)
    requires s.pc != Idle && s.quit && Legal(s, acts) && StaysInLoop(s, acts)
    ensures Run(s, acts).quit && Run(s, acts).pc != Idle
    decreases |acts|
  {
    if |acts| == 0 {
    } else {
      InsideStays(Next(s, acts[0]), acts[1..]);
    }
  }

  /** A quit() can be lost, its flag cleared before loop() has returned, if and only if it comes while the loop
      thread is outside loop(). */
  lemma QuitLostIff(s: Loop, quit: Action)
    requires Inv(s) && Enabled(s, quit) && (quit.ThreadQuit? || quit.LoopQuit?)
    ensures (exists acts :: Loses(Next(s, quit), acts)) <==> s.pc == Idle
  {
    var r := Next(s, quit);
    if s.pc == Idle {
      assert [Enter][1..] == [];
      assert Run(Next(r, Enter), []) == Next(r, Enter);
      assert Loses(r, [Enter]);
    } else {
      forall acts | Legal(r, acts) && StaysInLoop(r, acts)
        ensures Run(r, acts).quit
      {
        InsideStays(r, acts);
      }
    }
  }

  /** A quit() inside loop() stands until loop() returns, and never lets it block without a wakeup. */
  lemma QuitStopsLoop(s: Loop, quit: Action, acts: seq<Action>)
    requires Inv(s) && s.pc != Idle && Enabled(s, quit) && (quit.ThreadQuit? || quit.LoopQuit?)
    requires Legal(Next(s, quit), acts) && StaysInLoop(Next(s, quit), acts)
    ensures var r := Run(Next(s, quit), acts); r.quit && (r.pc.Polling? ==> r.counter > 0 || r.waking != {})
  {
    StepKeepsInv(s, quit);
    InsideStays(Next(s, quit), acts);
    RunKeepsInv(Next(s, quit), acts);
  }

  // ---- Exactly once, in order ----

  function Passed(a: Action): seq<nat> {
    match a
    case ThreadPush(_, functor) => [functor]
    case LoopPush(functor) => [functor]
    case _ => []
  }

  /** What the queueInLoop calls of a run pass, in order. */
  function Pushes(acts: seq<Action>): seq<nat> {
    if |acts| == 0 then [] else Passed(acts[0]) + Pushes(acts[1..])
  }

  function Functors(tasks: seq<Task>): seq<nat> {
    seq(|tasks|, i requires 0 <= i < |tasks| => tasks[i].functor)
  }

  lemma StepQueues(s: Loop, a: Action)
    requires Enabled(s, a)
    ensures Functors(Next(s, a).queued) == Functors(s.queued) + Passed(a)
  {
  }

  lemma {:induction false} QueuesWhatIsPushed(s: Loop, acts: seq<Action>)
    requires Legal(s, acts)
    ensures Functors(Run(s, acts).queued) == Functors(s.queued) + Pushes(acts)
    decreases |acts|
  {
    if |acts| == 0 {
    } else {
      StepQueues(s, acts[0]);
      hide Enabled, Next, Functors, Passed;
      QueuesWhatIsPushed(Next(s, acts[0]), acts[1..]);
      var first, rest := Passed(acts[0]), Pushes(acts[1..]);
      assert Functors(s.queued) + first + rest == Functors(s.queued) + (first + rest);
    }
  }

  /** Functors run once each, in the order of their queueInLoop calls: those called, then those left in the
      swapped vector, then those pending are what all the calls of the run passed, no more and no less. */
  lemma ExactlyOnceInOrder(acts: seq<Action>)
    requires Legal(CREATED, acts)
    ensures var s := Run(CREATED, acts);
      && s.executed + InHand(s) + s.pending == s.queued
      && Functors(s.executed + InHand(s) + s.pending) == Pushes(acts)
  {
    RunKeepsInv(CREATED, acts);
    QueuesWhatIsPushed(CREATED, acts);
  }

  /** The wakeups since the eventfd was last read, `n` of them before these actions. */
  function Wakeups(n: nat, acts: seq<Action>): nat
    decreases |acts|
  {
    if |acts| == 0 then n
    else Wakeups(if acts[0].ReadCounter? then 0 else if acts[0].ThreadWake? || acts[0].LoopWake? then n + 1 else n,
                 acts[1..])
  }

  /** Whether quit() has been called since loop() last began. */
  function Asked(before: bool, acts: seq<Action>): bool
    decreases |acts|
  {
    if |acts| == 0 then before
    else Asked(!acts[0].Enter? && (before || acts[0].ThreadQuit? || acts[0].LoopQuit?), acts[1..])
  }

  /** The eventfd counts the wakeups since it was last read, and the flag says whether quit() was called since loop()
      began, whoever called. */
  lemma {:induction false} CountsAndRemembers(s: Loop, acts: seq<Action>)
    requires Legal(s, acts)
    ensures Run(s, acts).counter == Wakeups(s.counter, acts)
    ensures Run(s, acts).quit == Asked(s.quit, acts)
    decreases |acts|
  {
    if |acts| == 0 {
    } else {
      CountsAndRemembers(Next(s, acts[0]), acts[1..]);
    }
  }

  function Count(acts: seq<Action>, a: Action): nat {
    if |acts| == 0 then 0 else (if acts[0] == a then 1 else 0) + Count(acts[1..], a)
  }

  lemma RunningStep(s: Loop, a: Action)
    requires s.pc.Running? && Enabled(s, a) && a != EndFunctors
    ensures var t := Next(s, a);
      && t.pc.Running?
      && (a == CallFunctor ==> s.pc.left == [s.pc.left[0]] + t.pc.left && t.executed == s.executed + [s.pc.left[0]])
      && (a != CallFunctor ==> t.pc == s.pc && t.executed == s.executed)
  {
  }

  /** Between the swap and its end, doPendingFunctors calls exactly the functors it swapped out, whatever they
      and other threads queue meanwhile; so it ends after as many calls. */
  lemma {:induction false} RunsWhatItSwapped(s: Loop, acts: seq<Action>)
    requires Legal(s, acts) && s.pc.Running? && EndFunctors !in acts
    ensures Count(acts, CallFunctor) <= |s.pc.left|
    ensures Run(s, acts).pc == Running(s.pc.left[Count(acts, CallFunctor)..])
    ensures Run(s, acts).executed == s.executed + s.pc.left[..Count(acts, CallFunctor)]
    decreases |acts|
  {
    if |acts| == 0 {
    } else {
      assert acts[0] in acts && EndFunctors !in acts[1..];
      var t := Next(s, acts[0]);
      RunningStep(s, acts[0]);
      hide Next, Enabled;
      RunsWhatItSwapped(t, acts[1..]);
      assert Run(s, acts) == Run(t, acts[1..]);
      var k := Count(acts[1..], CallFunctor);
      hide Run, Legal;
      assert Count(acts, CallFunctor) == if acts[0] == CallFunctor then k + 1 else k;
      hide Count;
      if acts[0] == CallFunctor {
        assert s.pc.left[..k + 1] == [s.pc.left[0]] + t.pc.left[..k];
      }
    }
  }

  /** The steps the loop takes on its own, from a poll that returns to the next test. */
  function Pass(s: Loop): seq<Action> {
    [PollReturns] + (if s.counter > 0 then [ReadCounter] else []) + [StartFunctors, Swap]
  }

  /** Once poll returns, the loop needs nobody's help: after a fixed few steps all that was pending is in hand. */
  lemma PassTakesAll(s: Loop)
    requires s.pc == Polling && !s.mustWake
    ensures Legal(s, Pass(s)) && Run(s, Pass(s)).pc == Running(s.pending) && Run(s, Pass(s)).pending == []
  {
    var s1 := Next(s, PollReturns);
    if s.counter > 0 {
      var s2 := Next(s1, ReadCounter);
      var s3 := Next(s2, StartFunctors);
      var s4 := Next(s3, Swap);
      assert Pass(s)[1..] == [ReadCounter, StartFunctors, Swap] && Pass(s)[1..][1..] == [StartFunctors, Swap];
      assert [StartFunctors, Swap][1..] == [Swap] && [Swap][1..] == [];
      assert Run(s3, [Swap]) == s4 && Run(s2, [StartFunctors, Swap]) == s4;
    } else {
      var s3 := Next(s1, StartFunctors);
      var s4 := Next(s3, Swap);
      assert Pass(s)[1..] == [StartFunctors, Swap];
      assert [StartFunctors, Swap][1..] == [Swap] && [Swap][1..] == [];
      assert Run(s3, [Swap]) == s4 && Run(s1, [StartFunctors, Swap]) == s4;
    }
  }

  lemma {:induction false} RunThen(s: Loop, acts: seq<Action>, a: Action)
    requires Legal(s, acts) && Enabled(Run(s, acts), a)
    ensures Legal(s, acts + [a]) && Run(s, acts + [a]) == Next(Run(s, acts), a)
    decreases |acts|
  {
    hide Enabled, Next;
    if |acts| == 0 {
      assert acts + [a] == [a];
      assert [a][1..] == [];
    } else {
      RunThen(Next(s, acts[0]), acts[1..], a);
      assert (acts + [a])[1..] == acts[1..] + [a];
    }
  }
}
