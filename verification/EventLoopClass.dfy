/** net/EventLoop.cpp: the class, member by member, over the state machine of module EventLoops. */
module EventLoopClass {
  import opened EventLoops

  /** What happens while user code runs in the loop thread: it calls queueInLoop or quit, or another thread takes
      a step. */
  datatype Doing = QueueInLoop(functor: nat) | Quit | Meanwhile(act: Action)

  /** One iteration of loop(): what other threads do while poll waits and before the swap, what the callbacks do
      before and after the wakeup channel's turn, and what each functor does. */
  datatype Round = Round(waiting: seq<Action>, callbacks: seq<Doing>, later: seq<Doing>,
                         swapping: seq<Action>, functors: seq<seq<Doing>>)

  predicate OtherThread(a: Action) {
    a.ThreadPush? || a.ThreadQuit? || a.ThreadWake?
  }

  /** The other thread is where it can take this step. */
  predicate Possible(waking: set<Thread>, a: Action) {
    match a
    case ThreadPush(t, _) => t !in waking
    case ThreadQuit(t) => t !in waking
    case ThreadWake(t) => t in waking
    case _ => false
  }

  function Moved(waking: set<Thread>, a: Action): set<Thread> {
    match a
    case ThreadPush(t, _) => waking + {t}
    case ThreadQuit(t) => waking + {t}
    case ThreadWake(t) => waking - {t}
    case _ => waking
  }

  /** Of the steps offered, those that their threads can take when they come. */
  function Steps(waking: set<Thread>, acts: seq<Action>): seq<Action>
    decreases |acts|
  {
    if |acts| == 0 then []
    else if Possible(waking, acts[0]) then [acts[0]] + Steps(Moved(waking, acts[0]), acts[1..])
    else Steps(waking, acts[1..])
  }

  /** The steps that come of one doing. */
  function Takes(waking: set<Thread>, calling: bool, doing: Doing): seq<Action> {
    match doing
    case QueueInLoop(functor) => [LoopPush(functor)] + (if calling then [LoopWake] else [])
    case Quit => [LoopQuit]
    case Meanwhile(act) => if Possible(waking, act) then [act] else []
  }

  function Moves(waking: set<Thread>, doing: Doing): set<Thread> {
    if doing.Meanwhile? && Possible(waking, doing.act) then Moved(waking, doing.act) else waking
  }

  /** The steps that user code and the threads beside it take. */
  function UserSteps(waking: set<Thread>, calling: bool, doings: seq<Doing>): seq<Action>
    decreases |doings|
  {
    if |doings| == 0 then []
    else Takes(waking, calling, doings[0]) + UserSteps(Moves(waking, doings[0]), calling, doings[1..])
  }

  function One(yes: bool): nat {
    if yes then 1 else 0
  }

  /** How often the loop thread queues a functor among `acts`. */
  function LoopPushes(acts: seq<Action>): nat {
    if |acts| == 0 then 0 else LoopPushes(acts[..|acts| - 1]) + One(acts[|acts| - 1].LoopPush?)
  }

  /** How often user code asks for it. */
  function Requests(doings: seq<Doing>): nat {
    if |doings| == 0 then 0 else One(doings[0].QueueInLoop?) + Requests(doings[1..])
  }

  /** The same of `n` functors; one without a body does nothing. */
  function AllRequests(bodies: seq<seq<Doing>>, n: nat): nat {
    if n == 0 then 0
    else AllRequests(bodies, n - 1) + (if n - 1 < |bodies| then Requests(bodies[n - 1]) else 0)
  }

  lemma PushesThen(acts: seq<Action>, a: Action)
    ensures LoopPushes(acts + [a]) == LoopPushes(acts) + One(a.LoopPush?)
  {
    assert (acts + [a])[..|acts|] == acts;
  }

  /** The run of `s` continued by one step. */
  ghost function Extended(s: Loop, trace: seq<Action>, a: Action): (longer: seq<Action>)
    requires Legal(s, trace) && Enabled(Run(s, trace), a)
    ensures Legal(s, longer) && Run(s, longer) == Next(Run(s, trace), a) && longer == trace + [a]
    ensures LoopPushes(longer) == LoopPushes(trace) + One(a.LoopPush?)
  {
    RunThen(s, trace, a);
    PushesThen(trace, a);
    trace + [a]
  }

  class EventLoop {
    var looping: bool
    var quit: bool
    var eventHandling: bool
    var callingPendingFunctors: bool
    var iteration: nat
    var wakeupCounter: nat
    var pendingFunctors: seq<Task>
    ghost var pc: Pc
    var waking: set<Thread>  // the positions of the other threads
    ghost var mustWake: bool
    ghost var queued: seq<Task>
    ghost var executed: seq<Task>

    ghost function Abs(): Loop
      reads this
    {
      Loop(pc, quit, callingPendingFunctors, wakeupCounter, pendingFunctors, waking, mustWake, queued, executed)
    }

    /** The flags that user code can read tell where the loop thread is. */
    ghost predicate Valid()
      reads this
    {
      && Inv(Abs())
      && (looping <==> pc != Idle)
      && (eventHandling <==> pc.Handling?)
    }

    constructor ()
      ensures Valid() && Abs() == CREATED && iteration == 0
    {
      looping, quit, eventHandling, callingPendingFunctors := false, false, false, false;
      iteration, wakeupCounter, pendingFunctors := 0, 0, [];
      pc, waking, mustWake, queued, executed := Idle, {}, false, [], [];
    }

    /** wakeup() by the loop thread. */
    method Wakeup()
      requires Valid() && mustWake
      modifies this`wakeupCounter, this`mustWake
      ensures Valid() && Abs() == Next(old(Abs()), LoopWake)
    {
      StepKeepsInv(Abs(), LoopWake);
      wakeupCounter := wakeupCounter + 1;
      mustWake := false;
    }

    /** queueInLoop by the loop thread: it wakes itself only while functors are being called. */
    method QueueFromLoop(functor: nat, ghost start: Loop, ghost before: seq<Action>) returns (ghost trace: seq<Action>)
      requires Valid() && UserCode(Abs()) && Legal(start, before) && Abs() == Run(start, before)
      modifies this`pendingFunctors, this`queued, this`mustWake, this`wakeupCounter
      ensures Valid() && UserCode(Abs()) && Legal(start, trace) && Abs() == Run(start, trace)
      ensures trace == before + [LoopPush(functor)] + (if callingPendingFunctors then [LoopWake] else [])
      ensures LoopPushes(trace) == LoopPushes(before) + 1
      ensures old(pendingFunctors) <= pendingFunctors
    {
      hide Legal, Run, Inv;
      trace := Extended(start, before, LoopPush(functor));
      StepKeepsInv(Abs(), LoopPush(functor));
      var task := Task(functor, if looping then Inside else Outside);
      pendingFunctors := pendingFunctors + [task];
      queued := queued + [task];
      mustWake := callingPendingFunctors;
      if callingPendingFunctors {
        trace := Extended(start, trace, LoopWake);
        Wakeup();
      }
    }

    /** quit() by the loop thread. */
    method QuitFromLoop()
      requires Valid() && UserCode(Abs())
      modifies this`quit
      ensures Valid() && Abs() == Next(old(Abs()), LoopQuit)
    {
      StepKeepsInv(Abs(), LoopQuit);
      quit := true;
    }

    /** One step of queueInLoop or quit in another thread: the push or the flag, or the wakeup after it. */
    method OtherThreadSteps(a: Action)
      requires Valid() && OtherThread(a) && Enabled(Abs(), a)
      modifies this`pendingFunctors, this`queued, this`quit, this`wakeupCounter, this`waking
      ensures Valid() && Abs() == Next(old(Abs()), a) && waking == Moved(old(waking), a)
    {
      StepKeepsInv(Abs(), a);
      hide Inv;
      match a {
        case ThreadPush(t, functor) =>
          pendingFunctors := pendingFunctors + [Task(functor, Other)];
          queued := queued + [Task(functor, Other)];
          waking := waking + {t};
        case ThreadQuit(t) =>
          quit := true;
          waking := waking + {t};
        case ThreadWake(t) =>
          wakeupCounter := wakeupCounter + 1;
          waking := waking - {t};
      }
    }

    /** handleRead: the wakeup channel was active, so read(2) takes the whole counter. */
    method HandleRead() returns (one: nat)
      requires Valid() && pc == Handling(true) && !mustWake
      modifies this`wakeupCounter, this`pc
      ensures Valid() && Abs() == Next(old(Abs()), ReadCounter) && pc == Handling(false)
      ensures one == old(wakeupCounter) && one > 0
    {
      StepKeepsInv(Abs(), ReadCounter);
      one := wakeupCounter;
      wakeupCounter := 0;
      pc := Handling(false);
    }

    /** Steps of other threads, each taken if its thread is where it can take it. */
    method Meanwhile(acts: seq<Action>, ghost start: Loop, ghost before: seq<Action>) returns (ghost trace: seq<Action>)
      requires Valid() && Legal(start, before) && Abs() == Run(start, before)
      modifies this`pendingFunctors, this`queued, this`quit, this`wakeupCounter, this`waking
      ensures Valid() && Legal(start, trace) && Abs() == Run(start, trace)
      ensures trace == before + Steps(old(waking), acts) && LoopPushes(trace) == LoopPushes(before)
      ensures old(pendingFunctors) <= pendingFunctors && old(wakeupCounter) <= wakeupCounter
    {
      hide Legal, Run, Inv, LoopPushes;
      trace := before;
      for i := 0 to |acts|
        invariant Valid() && Legal(start, trace) && Abs() == Run(start, trace)
        invariant trace + Steps(waking, acts[i..]) == before + Steps(old(waking), acts)
        invariant LoopPushes(trace) == LoopPushes(before)
        invariant old(pendingFunctors) <= pendingFunctors && old(wakeupCounter) <= wakeupCounter
      {
        assert acts[i..][0] == acts[i] && acts[i..][1..] == acts[i + 1..];
        if Possible(waking, acts[i]) {
          trace := Extended(start, trace, acts[i]);
          OtherThreadSteps(acts[i]);
        }
      }
    }

    /** One thing that happens while user code runs. */
    method Do(doing: Doing, ghost start: Loop, ghost before: seq<Action>) returns (ghost trace: seq<Action>)
      requires Valid() && UserCode(Abs()) && Legal(start, before) && Abs() == Run(start, before)
      modifies this`pendingFunctors, this`queued, this`quit, this`wakeupCounter, this`waking, this`mustWake
      ensures Valid() && UserCode(Abs()) && Legal(start, trace) && Abs() == Run(start, trace)
      ensures trace == before + Takes(old(waking), callingPendingFunctors, doing)
      ensures LoopPushes(trace) == LoopPushes(before) + One(doing.QueueInLoop?)
      ensures waking == Moves(old(waking), doing) && old(pendingFunctors) <= pendingFunctors
    {
      hide Legal, Run, Inv;
      match doing {
        case QueueInLoop(functor) =>
          trace := QueueFromLoop(functor, start, before);
        case Quit =>
          trace := Extended(start, before, LoopQuit);
          QuitFromLoop();
        case Meanwhile(act) =>
          trace := before;
          if Possible(waking, act) {
            trace := Extended(start, before, act);
            OtherThreadSteps(act);
          }
      }
    }

    /** User code in the loop thread, with other threads' steps in between. */
    method UserCodeRuns(doings: seq<Doing>, ghost start: Loop, ghost before: seq<Action>)
      returns (ghost trace: seq<Action>)
      requires Valid() && UserCode(Abs()) && Legal(start, before) && Abs() == Run(start, before)
      modifies this`pendingFunctors, this`queued, this`quit, this`wakeupCounter, this`waking, this`mustWake
      ensures Valid() && UserCode(Abs()) && Legal(start, trace) && Abs() == Run(start, trace)
      ensures trace == before + UserSteps(old(waking), callingPendingFunctors, doings)
      ensures LoopPushes(trace) == LoopPushes(before) + Requests(doings)
      ensures old(pendingFunctors) <= pendingFunctors
    {
      hide Legal, Run, Inv, Takes, Moves, UserCode, LoopPushes;
      trace := before;
      ghost var all := before + UserSteps(waking, callingPendingFunctors, doings);
      for i := 0 to |doings|
        invariant Valid() && UserCode(Abs()) && Legal(start, trace) && Abs() == Run(start, trace)
        invariant trace + UserSteps(waking, callingPendingFunctors, doings[i..]) == all
        invariant LoopPushes(trace) + Requests(doings[i..]) == LoopPushes(before) + Requests(doings)
        invariant old(pendingFunctors) <= pendingFunctors
      {
        assert doings[i..][0] == doings[i] && doings[i..][1..] == doings[i + 1..];
        trace := Do(doings[i], start, trace);
      }
    }

    method SetCalling()
      requires Valid() && pc == Handling(false) && !mustWake
      modifies this`callingPendingFunctors, this`pc, this`eventHandling
      ensures Valid() && Abs() == Next(old(Abs()), StartFunctors) && pc == Swapping
    {
      StepKeepsInv(Abs(), StartFunctors);
      eventHandling := false;
      callingPendingFunctors := true;
      pc := Swapping;
    }

    /** functors.swap(pendingFunctors_) under the mutex. */
    method SwapOut() returns (functors: seq<Task>)
      requires Valid() && pc == Swapping
      modifies this`pendingFunctors, this`pc
      ensures Valid() && Abs() == Next(old(Abs()), Swap) && functors == old(pendingFunctors) && pc == Running(functors)
    {
      StepKeepsInv(Abs(), Swap);
      functors := pendingFunctors;
      pendingFunctors := [];
      pc := Running(functors);
    }

    method Call(ghost left: seq<Task>)
      requires Valid() && pc == Running(left) && left != [] && !mustWake
      modifies this`pc, this`executed
      ensures Valid() && Abs() == Next(old(Abs()), CallFunctor)
      ensures pc == Running(left[1..]) && executed == old(executed) + [left[0]]
    {
      StepKeepsInv(Abs(), CallFunctor);
      pc := Running(left[1..]);
      executed := executed + [left[0]];
    }

    method ClearCalling()
      requires Valid() && pc == Running([]) && !mustWake
      modifies this`callingPendingFunctors, this`pc
      ensures Valid() && Abs() == Next(old(Abs()), EndFunctors) && pc == Testing && executed + pendingFunctors == queued
    {
      StepKeepsInv(Abs(), EndFunctors);
      callingPendingFunctors := false;
      pc := Testing;
    }

    /** The loop over the swapped vector: no functor can make it longer. */
    method CallAll(functors: seq<Task>, bodies: seq<seq<Doing>>, ghost start: Loop, ghost before: seq<Action>)
      returns (ghost trace: seq<Action>)
      requires Valid() && pc == Running(functors) && !mustWake && Legal(start, before) && Abs() == Run(start, before)
      modifies this`pendingFunctors, this`queued, this`quit, this`wakeupCounter, this`waking, this`mustWake, this`pc,
        this`executed
      ensures Valid() && pc == Running([]) && !mustWake && Legal(start, trace) && Abs() == Run(start, trace)
      ensures executed == old(executed) + functors
      ensures LoopPushes(trace) == LoopPushes(before) + AllRequests(bodies, |functors|)
    {
      hide Legal, Run, Inv, Next, UserSteps, LoopPushes;
      trace := before;
      for i := 0 to |functors|
        invariant Valid() && pc == Running(functors[i..]) && !mustWake
        invariant Legal(start, trace) && Abs() == Run(start, trace)
        invariant executed == old(executed) + functors[..i]
        invariant LoopPushes(trace) == LoopPushes(before) + AllRequests(bodies, i)
      {
        trace := Extended(start, trace, CallFunctor);
        Call(functors[i..]);
        assert functors[..i + 1] == functors[..i] + [functors[i]];
        trace := UserCodeRuns(if i < |bodies| then bodies[i] else [], start, trace);
      }
    }

    /** doPendingFunctors: everything pending at the call runs, in order and once, whatever the functors and other
        threads queue meanwhile; the loop over the swapped vector ends on its own. */
    method DoPendingFunctors(swapping: seq<Action>, bodies: seq<seq<Doing>>,
            ghost start: Loop, ghost before: seq<Action>)
      returns (ghost trace: seq<Action>)
      requires Valid() && pc == Handling(false) && !mustWake && Legal(start, before) && Abs() == Run(start, before)
      modifies this`pendingFunctors, this`queued, this`quit, this`wakeupCounter, this`waking, this`mustWake, this`pc,
        this`executed, this`callingPendingFunctors, this`eventHandling
      ensures Valid() && pc == Testing && !mustWake && Legal(start, trace) && Abs() == Run(start, trace)
      ensures old(executed + pendingFunctors) <= executed && executed + pendingFunctors == queued
      ensures LoopPushes(trace) == LoopPushes(before) + AllRequests(bodies, |executed| - |old(executed)|)
    {
      hide Legal, Run, Inv, Next, Steps, LoopPushes, AllRequests;
      trace := Extended(start, before, StartFunctors);
      SetCalling();
      trace := Meanwhile(swapping, start, trace);
      trace := Extended(start, trace, Swap);
      var functors := SwapOut();
      assert old(executed + pendingFunctors) <= executed + functors;
      trace := CallAll(functors, bodies, start, trace);
      trace := Extended(start, trace, EndFunctors);
      ClearCalling();
    }

    method Begin()
      requires Valid() && pc == Idle && !mustWake
      modifies this`looping, this`quit, this`pc
      ensures Valid() && Abs() == Next(old(Abs()), Enter) && pc == Testing && !quit
    {
      StepKeepsInv(Abs(), Enter);
      looping := true;
      quit := false;
      pc := Testing;
    }

    method Leave()
      requires Valid() && pc == Testing && quit
      modifies this`looping, this`pc
      ensures Valid() && Abs() == Next(old(Abs()), Test) && pc == Idle
    {
      StepKeepsInv(Abs(), Test);
      looping := false;
      pc := Idle;
    }

    method Block()
      requires Valid() && pc == Testing && !quit
      modifies this`pc
      ensures Valid() && Abs() == Next(old(Abs()), Test) && pc == Polling
    {
      StepKeepsInv(Abs(), Test);
      pc := Polling;
    }

    /** poll returns: the wakeup channel is active exactly when the counter is positive. */
    method Return() returns (woken: bool)
      requires Valid() && pc == Polling && !mustWake
      modifies this`pc, this`iteration, this`eventHandling
      ensures Valid() && Abs() == Next(old(Abs()), PollReturns) && pc == Handling(woken)
      ensures iteration == old(iteration) + 1
    {
      StepKeepsInv(Abs(), PollReturns);
      woken := wakeupCounter > 0;
      iteration := iteration + 1;
      eventHandling := true;
      pc := Handling(woken);
    }

    /** The callbacks of the active channels, the wakeup channel's among them. */
    method HandleActive(woken: bool, round: Round, ghost start: Loop, ghost before: seq<Action>)
      returns (ghost trace: seq<Action>)
      requires Valid() && pc == Handling(woken) && !mustWake && Legal(start, before) && Abs() == Run(start, before)
      modifies this`pendingFunctors, this`queued, this`quit, this`wakeupCounter, this`waking, this`mustWake, this`pc
      ensures Valid() && pc == Handling(false) && !mustWake && Legal(start, trace) && Abs() == Run(start, trace)
      ensures old(pendingFunctors) <= pendingFunctors
      ensures LoopPushes(trace) == LoopPushes(before) + Requests(round.callbacks) + Requests(round.later)
    {
      hide Legal, Run, Inv, Next, UserSteps, LoopPushes, Requests;
      trace := UserCodeRuns(round.callbacks, start, before);
      if woken {
        trace := Extended(start, trace, ReadCounter);
        var one := HandleRead();
      }
      trace := UserCodeRuns(round.later, start, trace);
    }

    /** poll, and what becomes active by it. */
    method PollAndHandle(round: Round, ghost start: Loop, ghost before: seq<Action>) returns (ghost trace: seq<Action>)
      requires Valid() && pc == Testing && !mustWake && !quit && Legal(start, before) && Abs() == Run(start, before)
      modifies this`pendingFunctors, this`queued, this`quit, this`wakeupCounter, this`waking, this`mustWake, this`pc,
        this`iteration, this`eventHandling
      ensures Valid() && pc == Handling(false) && !mustWake && Legal(start, trace) && Abs() == Run(start, trace)
      ensures iteration == old(iteration) + 1 && old(pendingFunctors) <= pendingFunctors
      ensures LoopPushes(trace) == LoopPushes(before) + Requests(round.callbacks) + Requests(round.later)
    {
      hide Legal, Run, Inv, Next, Steps, LoopPushes, Requests;
      trace := Extended(start, before, Test);
      Block();
      trace := Meanwhile(round.waiting, start, trace);
      trace := Extended(start, trace, PollReturns);
      var woken := Return();
      trace := HandleActive(woken, round, start, trace);
    }

    /** One iteration of loop(). */
    method Iterate(round: Round, ghost start: Loop, ghost before: seq<Action>) returns (ghost trace: seq<Action>)
      requires Valid() && pc == Testing && !mustWake && !quit && Legal(start, before) && Abs() == Run(start, before)
      modifies this
      ensures Valid() && !mustWake && Legal(start, trace) && Abs() == Run(start, trace)
      ensures pc == Testing && iteration == old(iteration) + 1
      ensures old(executed + pendingFunctors) <= executed
      ensures LoopPushes(trace) == LoopPushes(before) + Requests(round.callbacks) + Requests(round.later) +
        AllRequests(round.functors, |executed| - |old(executed)|)
    {
      hide Legal, Run, Inv, Next, LoopPushes, Requests, AllRequests;
      trace := PollAndHandle(round, start, before);
      trace := DoPendingFunctors(round.swapping, round.functors, start, trace);
    }

    /** loop(), for as many iterations as there are rounds or until quit_ is seen: every iteration polls, runs the
        active channels, and then the functors that are pending by then. */
    method LoopFor(rounds: seq<Round>, ghost start: Loop, ghost before: seq<Action>) returns (ghost trace: seq<Action>)
      requires Valid() && pc == Idle && !mustWake && Legal(start, before) && Abs() == Run(start, before)
      modifies this
      ensures Valid() && Legal(start, trace) && Abs() == Run(start, trace)
      ensures pc == Testing || pc == Idle
      ensures pc == Idle ==> quit
      ensures iteration <= old(iteration) + |rounds|
    {
      hide Legal, Run, Inv, Next;
      trace := Extended(start, before, Enter);
      Begin();
      var i := 0;
      while i < |rounds| && !quit
        invariant 0 <= i <= |rounds| && pc == Testing && iteration == old(iteration) + i
        invariant Valid() && !mustWake && Legal(start, trace) && Abs() == Run(start, trace)
      {
        trace := Iterate(rounds[i], start, trace);
        i := i + 1;
      }
      if quit {
        trace := Extended(start, trace, Test);
        Leave();
      }
    }
  }
}
