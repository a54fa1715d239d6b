# Verification of the muduo reactor port

A Dafny model of the parts of the repository whose correctness depends on arithmetic, ordering or ownership, with
proofs that hold for every input, every interleaving or every run. `dafny verify dfyconfig.toml` checks all of it.

Each core is modelled twice where the source changes state step by step. A state machine over values (a datatype, a
`Next` function, runs as sequences of actions) carries the invariants and the theorems about whole runs. A class with
the fields of the source's class changes them in the order of the source, and its methods are proved to do exactly a
step of that machine, or a run of steps. Steps that belong to the kernel, or make a new channel, have no method in the
poller classes.

| files | what they model |
|---|---|
| `CInt.dfy`, `Calendar.dfy`, `UtcTime.dfy`, `TimeZone.dfy` | C++ division, the Julian day formulas, broken-down UTC time, zones with transitions |
| `Buffer.dfy`, `ConnStates.dfy`, `OutputStream.dfy` | the byte buffer and the output side of a connection |
| `EventLoop.dfy`, `EventLoopClass.dfy` | the functor queue and its wakeup among any number of threads |
| `TimerQueue.dfy`, `TimerRuns.dfy`, `TimerQueueClass.dfy` | timers in two ordered sets, their ownership, and the one-shot timerfd |
| `Lifecycle.dfy`, `LifecycleSteps.dfy`, `LifecycleClass.dfy`, `ChannelIndexes.dfy` | connections handed between a base loop and io loops |
| `PollArray.dfy`, `PollArrayClass.dfy` | the pollfd array with back-pointers |
| `EPollPoller.dfy`, `EPollPollerClass.dfy` | the epoll registration machine against the kernel's set |
| `Connector.dfy`, `ConnectorRuns.dfy`, `ConnectorClass.dfy` | connection attempts with retry, stop and restart |
| `LogStream.dfy` | integers printed into a fixed buffer |

Conventions:

- Integers are unbounded. C++'s truncated division is written out in `CInt`. `Calendar.InverseFits`,
  `Calendar.FormulaFits` and `UtcTime.UtcFitsInt32Iff` say for which inputs every 32-bit intermediate value is exact;
  `LogStreams.LongestInt` covers every 64-bit integer.
- System calls are contracts: write takes a prefix or fails, poll reports nothing for negative fds, epoll_wait gives
  back pointers that are in the set, epoll_ctl refuses to add what is there and to change or delete what is not,
  a hang-up without input comes without priority input. Their outcomes are parameters, as are clocks, errno classes
  and the choice of io loop.
- A failing `assert` of the source is a value (`ok`, `AssertFails`) in the state machines, so that "no assert fails" is
  something proved and not assumed. Where runs must be excluded for it, the predicate `Calm` says which, and it is
  exact: `Lifecycle.RunsSafelyIff` and `Connectors.StepKeepsIff`, `Connectors.RestartsSafelyIff` and
  `Connectors.StartsSafelyIff` prove both directions. A few concrete runs show the failures.
- After a half-close, write(2) fails with a broken pipe, or with whatever error the socket has pending; it never
  would block.
- `toUtcTime` and `fromUtcTime` stand in for `gmtime_r` and `timegm`, as the remarks at base/TimeZone.cpp:245 and
  base/TimeZone.cpp:259 intend. The independent calendar is the one of section 5.7 and Appendix C of RFC 3339, the
  order of transitions the one of section 3.2 of RFC 8536.
- Timers, channels and sockets are named by addresses or serial numbers, so that address reuse and double release can
  be expressed. Sequences listing what happened (`ran`, `freed`, `closed`, `executed`, ...) are history that the
  program does not have. Theorems about them are stated over the calls of a run and the results of system calls as
  well, which no member writes.

Where the code differs from what its names or remarks suggest, the model follows the code:

- `Buffer`'s constructor ignores `initialSize`, and asserts that 1024 was passed.
- `Date::weekDay` leaves 0..6 for Julian days below -1 that are not Sundays.
- `tm_yday` is off by one in year -4800, whose 1 January lies before the first day the formula covers.
- `quit()` before `loop()` is lost, and a functor queued by the loop thread outside `loop()` does not wake the first
  poll.
- `disableAll` on a channel that is not in the epoll set adds it with an empty mask, so errors and hang-ups are still
  reported for it. A connection that stopped reading and is then closed can therefore be closed twice.
- Cancelling a timer from an earlier callback of the batch it is in does not stop the callback it still has coming in
  that batch.
- A message sent in the loop after the half-close is not given up when its write meets an errno other than EPIPE and
  ECONNRESET: it is buffered, and stays there.
- `Connector::restart` takes back neither a retry timer nor a queued stop or start.
- In the pollfd array, enabling a disabled channel does not restore its fd, and a removed channel keeps its index.
- The local-time branch marked as a hack is what makes the round trip hold in the repeated hour, for clocks that go
  back by exactly one hour out of daylight saving.
  When daylight saving ends by another amount, the same branch answers with an instant that shows another reading.

## Model

| member | source | states |
|---|---|---|
| `Calendar.SuccessorAddsOne` | base/Date.cpp:11-17 | On the Gregorian calendar defined by day-by-day succession and the leap rule, the next day has the next Julian day number, for every date from 1 March of year -4800 on. |
| `Calendar.FormulaCountsDays` | base/Date.cpp:11-17 | The closed formula equals the number of day steps taken from 1 March -4800, for every number of steps. |
| `Calendar.InverseWalksCalendar` | base/Date.cpp:19-31 | From day -32044 on, the inverse yields the date reached by that many day steps, and the formula takes it back. |
| `Calendar.YieldsDateIff` | base/Date.cpp:19-31 | The inverse yields a valid calendar date if and only if its argument is at least -32044. |
| `Calendar.RoundTripIff` | base/Date.cpp:11-31 | A valid date survives formula and inverse if and only if it is not before 1 March -4800. |
| `Calendar.EveryDateIsReached` | base/Date.cpp:11-31 | Every date from 1 March -4800 on is reached by stepping, after as many days as the formula says. |
| `Calendar.NoDayBeforeFirst` | base/Date.cpp:19-31 | Below -32044 the inverse always has a day of zero or less. |
| `Calendar.JulianOrder` | base/Date.cpp:11-17 | Julian day numbers are ordered exactly as dates are on the calendar. |
| `Calendar.WeekDays` | base/Date.h:55-57 | Weekdays follow one another from a Thursday on 1 January 1970; they lie in 0..6 exactly from day -1 on or on Sundays, since the remainder truncates. |
| `Calendar.DayOfYearIff` | base/TimeZone.cpp:292-295 | Subtracting the Julian day of 1 January gives the offset counted month by month if and only if the year is at least -4799. |
| `Calendar.InverseFits` | base/Date.cpp:19-31 | The inverse stays inside 32-bit integers if and only if 4 * a + 3 does. |
| `Calendar.InverseYears` | base/Date.cpp:19-31 | The years the inverse produces without overflow lie between -4800 and 1500000. |
| `Calendar.FormulaFits` | base/Date.cpp:11-17 | On all those years the formula stays inside 32-bit integers. |
| `UtcTime.FillHMS` | base/TimeZone.cpp:59-64 | Hour, minute and second are in range and add up to the seconds given. |
| `UtcTime.ToUtcTime` | base/TimeZone.cpp:274-297 | For any second count, negative ones included, the fields are those of the day found by floored division and of the seconds since its midnight. |
| `UtcTime.FieldsInRangeIff` | base/TimeZone.cpp:274-314 | The fields name a real second of a real date if and only if the count is not before the first covered second. |
| `UtcTime.SecondsRoundTrip` | base/TimeZone.cpp:274-314 | fromUtcTime undoes toUtcTime for every covered second. |
| `UtcTime.FieldsRoundTrip` | base/TimeZone.cpp:274-314 | toUtcTime undoes fromUtcTime for all fields in range. |
| `UtcTime.FieldsFollowTime` | base/TimeZone.cpp:274-297 | A second is earlier than another if and only if its fields are lexicographically earlier. |
| `UtcTime.YearDayIff` | base/TimeZone.cpp:292-295 | tm_yday is the day count since 1 January if and only if the year is at least -4799. |
| `UtcTime.WeekDayOfSecond` | base/TimeZone.cpp:274-297 | tm_wday counts days by sevens from a Sunday exactly when it lies in 0..6, which is from Julian day -1 on or on Sundays. |
| `UtcTime.UtcFitsInt32Iff` | base/TimeZone.cpp:274-297 | From the first covered second on, every `int` of toUtcTime holds the mathematical value if and only if the second lies before day 534398280 since 1970. |
| `TimeZone.BuildTransitions` | base/TimeZone.cpp:164-168 | Every transition carries its instant, its index and that instant on the new clock. |
| `TimeZone.LowerBound` | base/TimeZone.cpp:195-198 | The binary search finds the first transition not below the key. |
| `TimeZone.FindLocaltime` | base/TimeZone.cpp:188-214 | In either order, the clock found is that of the last transition at or before the key, or the first clock when there is none. |
| `TimeZone.LastIsUnique` | base/TimeZone.cpp:188-214 | On ascending transitions the last one at or before an instant is characterised by its two neighbours. |
| `TimeZone.SpacedAscends` | base/TimeZone.cpp:25-46 | Spaced transitions ascend both by UTC and by local time, so both searches are meaningful. |
| `TimeZone.ToLocalTime` | base/TimeZone.cpp:234-252 | The UTC fields of the shifted instant, labelled with the clock in force. |
| `TimeZone.LabelsName` | base/TimeZone.cpp:234-252 | The fields taken as UTC, less tm_gmtoff, are the instant again; daylight saving flag and offset are those of the clock in force, and the zone is its abbreviation up to the NUL. |
| `TimeZone.FromLocalTime` | base/TimeZone.cpp:254-272 | The instant chosen for a local reading, the branch that rereads a DST hour included. |
| `TimeZone.LocalPeriod` | base/TimeZone.cpp:254-272 | Searching by local time finds the period of the instant, or the next one exactly when the reading is shown again. |
| `TimeZone.ReadsBackIff` | base/TimeZone.cpp:234-272 | fromLocalTime undoes toLocalTime at an instant if and only if its reading does not repeat, or repeats because daylight saving ends by one hour. |
| `TimeZone.ReadsBackOnlyIf` | base/TimeZone.cpp:234-272 | At a transition that sets the clock back the last second before it is read back if and only if the transition ends daylight saving by one hour. |
| `TimeZone.ZoneReadsBackIff` | base/TimeZone.cpp:234-272 | All instants of a zone are read back if and only if the zone sets its clock back only to end daylight saving by one hour. |
| `TimeZone.ReadsBackFromFirstTransition` | base/TimeZone.cpp:234-272 | From the first transition on every instant, the repeated hour included, is read back under that condition on the later transitions. |
| `TimeZone.GuessPeriod` | base/TimeZone.cpp:254-272 | The first try of fromLocalTime lands in the period it was made for, or in the next one exactly when the clock is set forward over the reading. |
| `TimeZone.ShownIff` | base/TimeZone.cpp:254-272 | Some instant shows a reading if and only if the clock is not set forward over it. |
| `TimeZone.AnswersIff` | base/TimeZone.cpp:254-272 | The instant answered shows the reading asked for if and only if the reading is not skipped, or, where the branch for a repeated hour goes back 3600 s, the clock did go back by exactly an hour. |
| `TimeZone.ReadingComesBackIff` | base/TimeZone.cpp:234-272 | toLocalTime undoes fromLocalTime on any real date and time of day under exactly that condition. |
| `Buffers.Buffer.constructor` | net/Buffer.h:19-26 | An empty buffer with 8 bytes in front and 1024 to write; the argument is ignored but for an assert that passes exactly when 1024 was asked for. |
| `Buffers.Buffer.Retrieve` | net/Buffer.h:46-54 | Takes bytes off the front of the queue; an emptied buffer goes back to the start. |
| `Buffers.Buffer.RetrieveAll` | net/Buffer.h:78-81 | An empty queue, both indices back at 8. |
| `Buffers.Buffer.ReadableBytes` | net/Buffer.h:30-32 | The length of the queue. |
| `Buffers.Buffer.RetrieveAsString` | net/Buffer.h:87-92 | Returns the first bytes and takes exactly those off. |
| `Buffers.Buffer.Append` | net/Buffer.h:94-98 | Puts the bytes at the end of the queue, through growth or compaction. |
| `Buffers.Buffer.Unwrite` | net/Buffer.h:120-123 | Takes bytes off the end of the queue. |
| `Buffers.Buffer.MakeSpace` | net/Buffer.h:155-168 | Grows to an exact fit or compacts in place; what is readable stays, and the assert that the reader has moved holds. |
| `Buffers.Buffer.EnsureWritableBytes` | net/Buffer.h:104-109 | There is room for what was asked and what is readable stays. |
| `Buffers.Buffer.MoveToFront` | net/Buffer.h:161-166 | The overlapping forward copy moves the readable bytes to index 8 unharmed. |
| `Buffers.Buffer.ReadFd` | net/Buffer.cpp:13-36 | Bytes scattered over the tail and the 64 KiB overflow area end up appended in order; a failed read changes nothing. |
| `Buffers.ReserveMakesRoom` | net/Buffer.h:155-168 | Making space keeps what is readable, leaves the room asked for, and compacts only when the reader is past index 8. |
| `Buffers.AppendCapacity` | net/Buffer.h:94-109 | Appending len bytes to r readable ones leaves a capacity of at most max(old, r + 2 * len + 7). |
| `Buffers.CapacityStaysBounded` | net/Buffer.h:46-123 | Over any run, capacity stays within the starting one or the most kept plus one chunk plus 7 bytes. |
| `OutputStream.StepKeepsInv` | net/TcpConnection.cpp:87-147 | Each member keeps write interest equal to having bytes to write, keeps bytes waiting behind a half-close only when a send buffered them late, and never moves state_ backwards. |
| `OutputStream.StepConserves` | net/TcpConnection.cpp:87-133 | One step moves bytes towards the kernel and adds exactly the message it does not drop whole. |
| `OutputStream.GivenUpIff` | net/TcpConnection.cpp:97-127 | A message is given up whole if and only if the connection is down, or nothing waits and its write fails with EPIPE or ECONNRESET. |
| `OutputStream.StepTakes` | net/TcpConnection.cpp:97-103 | When sendInLoop or handleWrite calls write(2) and it takes n bytes, the kernel has exactly n bytes more. |
| `OutputStream.OthersMoveNothing` | net/TcpConnection.cpp:135-169 | Nothing but sendInLoop and handleWrite moves bytes or queues a callback. |
| `OutputStream.HighWaterIff` | net/TcpConnection.cpp:97-127 | The callbacks queued by a send are write-complete exactly when all went straight out, and high-water exactly on crossing the mark from below. |
| `OutputStream.StreamConserved` | net/TcpConnection.cpp:87-133 | After any run the kernel has the kept messages in order, cut after exactly as many bytes as the results of its writes add up to; the output buffer has the rest, and writing is enabled exactly while bytes wait. |
| `OutputStream.RunConserves` | net/TcpConnection.cpp:251-276 | The same from any state and in any order, for partial writes, would-block results and faults. |
| `OutputStream.StepNotEarly` | net/TcpConnection.cpp:251-276 | A step that half-closes or queues write-complete leaves nothing waiting. |
| `OutputStream.WriteCompleteIff` | net/TcpConnection.cpp:251-276 | While the connection is open and writing, handleWrite queues write-complete if and only if the callback is set and no byte is left. |
| `OutputStream.HalfClosesIff` | net/TcpConnection.cpp:142-147 | A connection becomes half-closed if and only if shutdownInLoop runs without write interest, or a write of handleWrite takes the last byte while on the way down. |
| `OutputStream.NeverEarly` | net/TcpConnection.cpp:135-147 | While up, a connection is half-closed and write-complete queued only when every kept byte of the whole run is with the kernel. |
| `OutputStream.HalfCloseFollowsDrain` | net/TcpConnection.cpp:256-267 | Once shutdownInLoop has run, a connection not disconnected is half-closed if and only if its buffer has drained, or something was buffered after the half-close. |
| `OutputStream.BufferedLateIff` | net/TcpConnection.cpp:106-129 | A step buffers bytes behind a half-close if and only if it sends a non-empty message whose write fails with an errno other than EPIPE, ECONNRESET and EWOULDBLOCK. |
| `OutputStream.StateFollowsCalls` | net/TcpConnection.cpp:135-169 | state_ after any run is told by the order of connectEstablished, shutdown, forceClose, handleClose and connectDestroyed alone. |
| `OutputStream.TcpConnection.SendInLoop` | net/TcpConnection.cpp:87-133 | On the object: the direct write, the fault branch and the buffering are one step of the stream. |
| `OutputStream.TcpConnection.WriteDirectly` | net/TcpConnection.cpp:97-116 | On the object: what the kernel takes at once, write-complete if that is all, and whether the message is given up. |
| `OutputStream.TcpConnection.KeepRest` | net/TcpConnection.cpp:119-132 | On the object: the rest joins the output buffer, with the high-water callback on crossing the mark and write interest. |
| `OutputStream.TcpConnection.HandleWrite` | net/TcpConnection.cpp:251-276 | On the object: writing from the buffer, stopping when drained, half-closing when on the way down. |
| `OutputStream.TcpConnection.ShutdownInLoop` | net/TcpConnection.cpp:142-147 | Half-closes at once when nothing waits, and otherwise leaves it to handleWrite. |
| `OutputStream.TcpConnection.BeginShutdown` | net/TcpConnection.cpp:135-140 | The check and set of shutdown, and whether the loop is to be told. |
| `OutputStream.TcpConnection.ConnectEstablished` | net/TcpConnection.cpp:214-221 | The stream is open and nothing waits. |
| `OutputStream.TcpConnection.HandleClose` | net/TcpConnection.cpp:278-288 | Disconnected, with no write interest left. |
| `OutputStream.TcpConnection.ConnectDestroyed` | net/TcpConnection.cpp:223-231 | Disconnected, with no write interest left, if it was still connected. |
| `OutputStream.TcpConnection.ForceClose` | net/TcpConnection.cpp:149-154 | Moves an open connection to kDisconnecting and hands the close to the loop. |
| `TimerQueues.InsertedSorted` | net/TimerQueue.cpp:185-207 | Inserting keeps the set in order of expiration and address. |
| `TimerQueues.ErasedIs` | net/TimerQueue.cpp:113-118 | Erasing an entry removes that entry and keeps the order. |
| `TimerQueues.ExpiredExactly` | net/TimerQueue.cpp:141-160 | getExpired takes exactly the timers that are due, and the assert behind its search holds. |
| `TimerQueues.OwnershipHolds` | net/TimerQueue.cpp:99-207 | Over any run of adds, cancels and batches whose callbacks add and cancel: the two sets hold the same timers by current expiration and sequence, each live timer is waiting to be added, in the sets or in the batch, never in two of these, and each timer created is live or was deleted exactly once. |
| `TimerQueues.SizesAgree` | net/TimerQueue.cpp:110-122 | The assert repeated in every member: both sets have the same size. |
| `TimerQueues.ResetAllOutcome` | net/TimerQueue.cpp:162-174 | Of a batch, each timer is restarted if it repeats and was not cancelled, and deleted otherwise; no other timer is touched. |
| `TimerQueues.AddSetsTimerfd` | net/TimerQueue.cpp:99-106 | addTimer sets the timerfd, no sooner than 100 us ahead, exactly when every waiting timer expires later than the new one. |
| `TimerQueues.FinishSetsTimerfd` | net/TimerQueue.cpp:176-182 | After a batch the timerfd is set to the earliest expiration, no sooner than 100 us, exactly when a timer is left and the earliest time is positive. |
| `TimerQueues.NeverForgotten` | net/TimerQueue.cpp:99-139 | From any state in order, as long as all times are positive, no run leaves a waiting timer without a timerfd due in time. |
| `TimerQueues.NoTimerForgotten` | net/TimerQueue.cpp:24-47 | From construction on, as long as all times are positive, between loop steps a waiting timer implies a timerfd armed or fired no later than the earliest expiration or 100 us after it was set. |
| `TimerQueues.DeadNeverRuns` | net/TimerQueue.cpp:134-136 | The callback of a deleted timer never runs again, in any later run. |
| `TimerQueues.CancelledNeverRuns` | net/TimerQueue.cpp:108-118 | A queued timer that is cancelled never runs again. |
| `TimerQueues.CancelledInBatch` | net/TimerQueue.cpp:119-121 | A timer cancelled from any callback of its own batch is deleted at the end of the batch, not restarted, and never runs again. |
| `TimerQueues.StaleCancelChangesNothing` | net/Timer.h:19-24 | Cancelling with the id of a deleted timer changes nothing, now or later, even when its address is in use again. |
| `TimerRuns.NeverEarly` | net/TimerQueue.cpp:125-139 | In every run, a callback about to run expires no later than the time handleRead read. |
| `TimerRuns.OneShotRunsOnce` | net/TimerQueue.cpp:162-174 | The callback of a timer that does not repeat runs at most once, whatever the run before and after it. |
| `TimerRuns.FirstCallNotBefore` | net/TimerQueue.cpp:89-93 | The first callback of a timer comes in a batch whose time is not before the one addTimer was told. |
| `TimerRuns.WaitsUntilAsked` | net/TimerQueue.cpp:99-106 | Once added, a timer nobody cancelled waits in the sets for exactly that time, until the batch of its first callback. |
| `TimerRuns.RepeatsAsAsked` | net/TimerQueue.cpp:162-174 | A batch that calls back a timer nobody cancelled puts it back for the time of the batch plus the interval addTimer was told, or deletes it if there was none. |
| `TimerRuns.BatchRunsAll` | net/TimerQueue.cpp:125-139 | Once a batch has made its calls, exactly the timers due at the time read have called back, once and in order, whatever the callbacks added or cancelled. |
| `TimerRuns.CancelledStillRunsIff` | net/TimerQueue.cpp:119-136 | A timer of the running batch that is cancelled has run again by the end of the batch if and only if its turn had not come at the cancel. |
| `TimerQueueClass.HowMuchTimeFromNow` | net/TimerQueue.cpp:24-35 | Seconds and nanoseconds that add up to the time left, at least 100 us. |
| `TimerQueueClass.TimerQueue.Insert` | net/TimerQueue.cpp:185-207 | On the object: both sets get the timer, and the caller learns whether it is now the earliest. |
| `TimerQueueClass.TimerQueue.NewTimer` | net/TimerQueue.cpp:89-93 | A timer at a free address with a sequence number never used before, and its id. |
| `TimerQueueClass.TimerQueue.AddTimerInLoop` | net/TimerQueue.cpp:99-106 | On the object: the step that adds a timer and sets the timerfd when it is the earliest. |
| `TimerQueueClass.TimerQueue.CancelInLoop` | net/TimerQueue.cpp:108-123 | On the object: the step that cancels, by deleting or by noting the id during a batch. |
| `TimerQueueClass.TimerQueue.GetExpired` | net/TimerQueue.cpp:141-160 | The due timers leave both sets. |
| `TimerQueueClass.TimerQueue.Reset` | net/TimerQueue.cpp:162-183 | The loop over the expired vector restarts or deletes each timer as the specification says. |
| `TimerQueueClass.TimerQueue.HandleRead` | net/TimerQueue.cpp:125-139 | A whole batch is a run of the queue with one call per due timer, each followed by exactly the adds and cancels its callback makes. |
| `EventLoops.NoLostWakeup` | net/EventLoop.cpp:82-128 | In every reachable state about to block, a functor queued by another thread or inside an iteration, or a set quit flag, has the eventfd positive or a thread on its way to wakeup(). |
| `EventLoops.CounterIsPositive` | net/EventLoop.cpp:189-196 | Whenever handleRead runs the counter is positive, so its read gets 8 bytes. |
| `EventLoops.SleepsOnlyOnOutside` | net/EventLoop.cpp:119-128 | The loop sleeps on functors only if the loop thread queued all of them outside loop(). |
| `EventLoops.NeverSleepsOnFunctors` | net/EventLoop.cpp:119-128 | If the loop thread queues only inside iterations, the loop never sleeps on functors. |
| `EventLoops.OutsideQueueSleepsIff` | net/EventLoop.cpp:125-127 | From any state before loop(), a functor queued by the loop thread does not wake the first poll, which sleeps on it if and only if the eventfd is zero and no other thread is on its way to wakeup(). |
| `EventLoops.QuitBeforeLoopIsLost` | net/EventLoop.cpp:75-108 | From any state before loop(), a quit() of any thread is lost: loop() clears the flag and polls. |
| `EventLoops.QuitLostIff` | net/EventLoop.cpp:75-108 | Some course of the threads lets loop() go on and clear the flag of a quit() if and only if the quit() was made before loop(). |
| `EventLoops.QuitStopsLoop` | net/EventLoop.cpp:75-108 | A quit() made inside loop() leaves the flag set until loop() returns, and on the way the loop never blocks without a wakeup pending or coming. |
| `EventLoops.ExactlyOnceInOrder` | net/EventLoop.cpp:198-212 | Functors executed, then the rest of the swapped vector, then those pending are always exactly the functors passed to queueInLoop, by any thread, in lock order. |
| `EventLoops.CountsAndRemembers` | net/EventLoop.cpp:180-196 | The eventfd counts the wakeups since it was last read, and quit_ is set exactly when quit() was called since loop() began. |
| `EventLoops.RunsWhatItSwapped` | net/EventLoop.cpp:198-212 | Whatever is queued meanwhile, one doPendingFunctors calls exactly the functors it swapped out, so it ends. |
| `EventLoops.PassTakesAll` | net/EventLoop.cpp:82-97 | Once poll returns, a fixed few steps of the loop alone take all that is pending in hand. |
| `EventLoops.StepKeepsInv` | net/EventLoop.cpp:75-128 | Each atomic step of any thread keeps the wakeup and order invariants. |
| `EventLoopClass.EventLoop.DoPendingFunctors` | net/EventLoop.cpp:198-212 | On the object: swap, call each, while others queue; a run of the protocol that executes all that was pending. |
| `EventLoopClass.EventLoop.LoopFor` | net/EventLoop.cpp:75-101 | On the object: loop() for any number of iterations is a run of the protocol, and ends idle only when quit. |
| `EventLoopClass.EventLoop.Iterate` | net/EventLoop.cpp:82-97 | One iteration executes everything queued before it, and queues as many functors as its callbacks and functors ask for. |
| `EventLoopClass.EventLoop.PollAndHandle` | net/EventLoop.cpp:83-95 | On the object: poll and the callbacks of the active channels, the wakeup channel among them, are a run of the protocol. |
| `EventLoopClass.EventLoop.UserCodeRuns` | net/EventLoop.cpp:119-128 | On the object: user code in the loop thread takes exactly the steps of its calls, with those of other threads in between. |
| `EventLoopClass.EventLoop.Meanwhile` | net/EventLoop.cpp:119-123 | On the object: of the steps offered by other threads, exactly those that can be taken are. |
| `EventLoopClass.EventLoop.QueueFromLoop` | net/EventLoop.cpp:119-128 | queueInLoop from the loop thread: the push, and a wakeup exactly while functors are being called. |
| `EventLoopClass.EventLoop.QuitFromLoop` | net/EventLoop.cpp:103-108 | quit() from the loop thread sets the flag and needs no wakeup. |
| `EventLoopClass.EventLoop.Wakeup` | net/EventLoop.cpp:180-187 | Adds one to the eventfd. |
| `EventLoopClass.EventLoop.HandleRead` | net/EventLoop.cpp:189-196 | Reads the eventfd, which is positive, down to zero. |
| `EventLoopClass.EventLoop.SwapOut` | net/EventLoop.cpp:202-205 | Takes all pending functors and leaves none. |
| `Lifecycle.RunsSafelyIff` | net/TcpServer.cpp:50-82 | No assert has failed anywhere in a run with any number of io loops, nor would have had a peer hung up, if and only if the run is calm: no functor or loop starts reading on a connection already closed, stops reading on one that was reading when it closed, or closes one with an empty mask. |
| `Lifecycle.StepKeepsInvIff` | net/TcpServer.cpp:50-82 | A step of base loop, io loops or users leaves each connection with exactly one token if and only if it is calm. |
| `Lifecycle.StrayFails` | net/Channel.cpp:66-74 | A connection that is down but registered is closed a second time when its peer hangs up, and an assert fails. |
| `Lifecycle.StepKeepsInv` | net/TcpServer.cpp:50-82 | The direction used for runs: every calm step keeps the tokens. |
| `Lifecycle.NoAssertFails` | net/TcpServer.cpp:50-82 | Over all calm interleavings with any number of io loops, none included, no assert fails: established once, closed once, erased with one hit, destroyed with no events enabled. |
| `Lifecycle.OneToken` | net/TcpConnection.cpp:214-231 | At every moment of a calm run a connection has one token; it is in the map exactly until removed, gets one DOWN for its UP, and when destroyed is unregistered with nothing queued for it but calls of its users. |
| `Lifecycle.StateMovesForward` | net/TcpConnection.cpp:278-288 | No step moves state_ backwards. |
| `Lifecycle.NoneIsLost` | net/TcpServer.cpp:71-82 | In a calm run a connection with no functor left in any queue is either up or taken down all the way. |
| `LifecycleSteps.DispatchClosesIff` | net/Channel.cpp:66-92 | Handling an event takes the connection down, with one more DOWN and its removal on its way, if and only if it is a hang-up without input or a read that meets end of file; else nothing changes. |
| `LifecycleSteps.FunctorClosesIff` | net/TcpConnection.cpp:164-169 | A functor takes its connection down if and only if it is forceCloseInLoop on an open one. |
| `LifecycleSteps.DownIff` | net/TcpConnection.cpp:278-288 | In a calm run a connection is down if and only if exactly one step of the run, an event or a forceCloseInLoop, closed it. |
| `LifecycleSteps.ForceCloseEnds` | net/TcpConnection.cpp:149-169 | After forceClose on an open connection, in any calm run, once no functor of it is left it has been closed, removed and destroyed. |
| `LifecycleSteps.DownEnds` | net/TcpServer.cpp:71-82 | The same once a connection is down for any reason. |
| `LifecycleSteps.AcceptMakes` | net/TcpServer.cpp:50-69 | Accepting makes one connection with the next number, in the map and the loop chosen, and hands its set-up to that loop or does it at once. |
| `LifecycleSteps.ShutdownMoves` | net/TcpConnection.cpp:135-140 | shutdown moves a connection in kConnected, and no other, to kDisconnecting and only then hands over shutdownInLoop. |
| `LifecycleSteps.ForceCloseMoves` | net/TcpConnection.cpp:149-154 | forceClose moves an open connection, and no other, to kDisconnecting and only then queues forceCloseInLoop. |
| `LifecycleSteps.ReadsAsAsked` | net/TcpConnection.cpp:190-212 | startRead and stopRead from the loop of an open connection leave it reading or not, and watched exactly while some event is wanted; from elsewhere they are handed to its loop. |
| `LifecycleSteps.HandedReadTakesEffect` | net/TcpConnection.cpp:194-212 | Handed over, they take effect when their turn comes. |
| `LifecycleSteps.WritesAsAsked` | net/Channel.h:74-82 | A change of write interest changes nothing else, and the poller watches exactly while some event is wanted. |
| `Lifecycle.AcceptStep` | net/TcpServer.cpp:50-69 | A new connection is in the map and has its first functor, or is set up at once when there is one loop. |
| `Lifecycle.FunctorStep` | net/TcpServer.cpp:75-82 | Running the functor at the head of any loop keeps its connection in order: the token says which it can be. |
| `Lifecycle.DispatchStep` | net/Channel.cpp:66-92 | Handling an event keeps the token: hang-up without input and end of file never close twice in one dispatch. |
| `Lifecycle.HeadFits` | net/TcpServer.cpp:71-82 | A functor at the head of a queue fits the state of its connection and the loop it is in. |
| `Lifecycle.ClosesInOrderIff` | net/TcpConnection.cpp:278-288 | Closing an open connection takes it off the poller if and only if its event mask is not empty. |
| `Lifecycle.DestroysInOrderIff` | net/TcpConnection.cpp:223-231 | connectDestroyed passes Channel::remove if and only if the connection is still kConnected, or has an empty mask and is known to the poller. |
| `Lifecycle.StartReadAfterCloseFails` | net/TcpConnection.cpp:190-200 | A run in which startRead overtaken by a hang-up makes connectDestroyed fail its assert. |
| `Lifecycle.StopReadThenForceCloseFails` | net/TcpConnection.cpp:202-212 | A run in which a connection that stopped reading is closed, stays registered and is closed again, failing the assert of handleClose. |
| `LifecycleClass.Channel.DisableAll` | net/Channel.h:84-87 | An empty mask, and in the kernel exactly if the channel was not. |
| `LifecycleClass.TcpConnection.ConnectEstablished` | net/TcpConnection.cpp:214-221 | On the object: connected, reading, registered, one UP. |
| `LifecycleClass.TcpConnection.ConnectDestroyed` | net/TcpConnection.cpp:223-231 | On the object: taken down if still connected, then removed; reports whether the asserts held. |
| `LifecycleClass.TcpServer.NewConnection` | net/TcpServer.cpp:50-69 | On the objects: the accept step. |
| `LifecycleClass.TcpServer.RemoveConnectionInLoop` | net/TcpServer.cpp:75-82 | On the objects: erased from the map and handed back to its io loop. |
| `LifecycleClass.TcpServer.RemoveConnection` | net/TcpServer.cpp:71-73 | On the objects: in the base loop at once if that is the connection's, else through its queue. |
| `LifecycleClass.TcpServer.SetReading` | net/TcpConnection.cpp:194-212 | On the objects: startReadInLoop and stopReadInLoop. |
| `LifecycleClass.TcpServer.HandleClose` | net/TcpConnection.cpp:278-288 | On the objects: taken down, then removed at once or through the base loop. |
| `LifecycleClass.TcpServer.HandleEvent` | net/Channel.cpp:66-92 | On the objects: one dispatch, close before read. |
| `LifecycleClass.TcpServer.RunFunctor` | net/EventLoop.cpp:207-209 | On the objects: the functor at the head of a loop does its step. |
| `LifecycleClass.TcpServer.Shutdown` | net/TcpConnection.cpp:135-140 | On the objects: check, set and hand over as one step. |
| `LifecycleClass.TcpServer.ForceClose` | net/TcpConnection.cpp:149-154 | On the objects: check, set and queue as one step. |
| `LifecycleClass.TcpServer.StartRead` | net/TcpConnection.cpp:190-192 | On the objects: in the loop at once, else through its queue. |
| `LifecycleClass.TcpServer.StopRead` | net/TcpConnection.cpp:202-204 | On the objects: in the loop at once, else through its queue. |
| `LifecycleClass.TcpServer.SetWriting` | net/Channel.h:74-82 | On the objects: the mask changes and the poller is told. |
| `LifecycleClass.TcpServer.Report` | net/EventLoop.cpp:83-84 | On the objects: poll puts a registered channel into activeChannels_ with its revents. |
| `PollArray.BijectionHolds` | reactor/s13/Poller.cpp:54-111 | After any legal sequence of updates, removals and polls no assert has failed, and each registered channel points at the one slot whose decoded fd maps back to it. |
| `PollArray.StepKeeps` | reactor/s13/Poller.cpp:54-111 | Each legal call passes its asserts and keeps the bijection. |
| `PollArray.UpdatesInOrderIff` | reactor/s13/Poller.cpp:57-74 | The asserts of updateChannel hold if and only if the channel is registered, or never was and its fd is free. |
| `PollArray.RemovesInOrderIff` | reactor/s13/Poller.cpp:86-93 | The asserts of removeChannel hold if and only if the channel is registered and was silenced at some time since. |
| `PollArray.RemoveKeeps` | reactor/s13/Poller.cpp:98-109 | Swapping the last slot into the hole, with its channel told, keeps the bijection. |
| `PollArray.RemovedCannotReturn` | reactor/s13/Poller.cpp:83-111 | A removed channel fails the assert of its next update, since its index is never taken back. |
| `PollArray.SilencedStaysDeaf` | reactor/s13/Poller.cpp:68-80 | A channel once updated with no events has a negative fd until it is removed, whatever it asks for later. |
| `PollArray.DeafIff` | reactor/s13/Poller.cpp:68-80 | A registered channel has a negative fd in its slot if and only if it was updated with no events since it was added. |
| `PollArray.SlotFollowsCalls` | reactor/s13/Poller.cpp:54-111 | After any legal run the calls on a channel alone say whether it has a slot, which events poll is asked for there, and whether its fd is negated. |
| `PollArray.FillsAfterRun` | reactor/s13/Poller.cpp:39-52 | After any legal run, fillActiveChannels with the count poll returned finds exactly the registered channels with positive revents, each once. |
| `PollArray.FillsExactly` | reactor/s13/Poller.cpp:39-52 | The same for any table in order: the early exit misses no channel and repeats none. |
| `PollArrayClass.Poller.UpdateChannel` | reactor/s13/Poller.cpp:54-81 | On the objects: push a slot, or rewrite it and negate its fd. |
| `PollArrayClass.Poller.RemoveChannel` | reactor/s13/Poller.cpp:83-111 | On the objects: erase, swap with last, pop. |
| `PollArrayClass.Poller.FillActiveChannels` | reactor/s13/Poller.cpp:39-52 | On the objects: the first `count` channels with positive revents in slot order, each told its own revents and no other told anything. |
| `PollArrayClass.Poller.Visit` | reactor/s13/Poller.cpp:41-50 | On the objects: the channel of a slot with events is found in the map, told, and appended. |
| `EPollPollers.RegistrationAgrees` | net/Poller/EPollPoller.cpp:78-142 | Over every legal run no assert fails, ADD is never issued on a present fd nor MOD or DEL on an absent one, and the epoll set is what the indexes say. |
| `EPollPollers.StepKeeps` | net/Poller/EPollPoller.cpp:78-129 | Each legal call succeeds and keeps poller and kernel in agreement. |
| `EPollPollers.KernelIs` | net/Poller/EPollPoller.cpp:78-142 | The kernel holds an fd with a mask and a pointer if and only if a channel marked kAdded has that fd and those events. |
| `EPollPollers.KernelFollowsCalls` | net/Poller/EPollPoller.cpp:78-142 | After any legal run the kernel holds an fd with a mask and a pointer if and only if the calls on that channel leave it watched, with the events last asked for. |
| `EPollPollers.AssertsHoldIff` | net/Poller/EPollPoller.cpp:83-122 | The asserts of updateChannel and removeChannel hold exactly for the calls a caller may make. |
| `EPollPollers.DisableUnwatchesIff` | net/Poller/EPollPoller.cpp:83-111 | disableAll takes the fd out of the epoll set if and only if it was in it; otherwise it adds it with an empty mask. |
| `EPollPollers.WatchedIsRegistered` | net/Poller/EPollPoller.cpp:63-76 | Whatever pointer the kernel gives back is a registered channel, so the debug asserts hold. |
| `EPollPollerClass.EPollPoller.UpdateChannel` | net/Poller/EPollPoller.cpp:78-112 | On the objects: the three-state update with its epoll_ctl call. |
| `EPollPollerClass.EPollPoller.Update` | net/Poller/EPollPoller.cpp:131-142 | One epoll_ctl call: done, or refused and nothing changed. |
| `EPollPollerClass.EPollPoller.RemoveChannel` | net/Poller/EPollPoller.cpp:114-129 | On the objects: forgotten, deleted from the kernel if it was there, index back to kNew. |
| `EPollPollerClass.EPollPoller.SetEvents` | net/Channel.h:64-87 | A member of Channel on a poller in agreement with the kernel: the step happens and no epoll_ctl call is refused. |
| `EPollPollerClass.EPollPoller.FillActiveChannels` | net/Poller/EPollPoller.cpp:63-76 | The channels come back in the order of the events, each with the revents of its last event. |
| `Connectors.SocketsConserved` | net/Connector.cpp:31-95 | Over every calm run no assert fails, each socket created is closed or handed over exactly once unless held, and one is held exactly in kConnecting. |
| `Connectors.DelayDoubles` | net/Connector.cpp:162-174 | The retry after k others waits min(500 * 2^k, 30000) ms. |
| `Connectors.StoppedRun` | net/Connector.cpp:42-54 | After stop() no socket is created and none handed over until the next start, whatever was on its way. |
| `Connectors.StopReleases` | net/Connector.cpp:47-54 | Once the loop has run its stopInLoop, a stopped connector holds no socket: each is closed or handed over once. |
| `ConnectorRuns.AttemptEnds` | net/Connector.cpp:126-160 | An attempt established with no error beside it is handed over if the connector wants to connect; any other end closes its socket, and sets one retry timer if the wish was not met; without an end it goes on. |
| `ConnectorRuns.StopEndsAttempt` | net/Connector.cpp:47-54 | stopInLoop closes the socket of an attempt under way, to be retried if start came meanwhile, and else does nothing. |
| `ConnectorRuns.AttemptBegins` | net/Connector.cpp:56-103 | Every calm step that calls connect makes one socket, kept if under way, else closed, with a retry timer exactly for the passing errors; restart counts retries anew. |
| `ConnectorRuns.HandedIff` | net/Connector.cpp:126-151 | Over a calm run a socket is handed over if and only if its attempt was established, with no error reported beside it, while the connector wanted to connect. |
| `ConnectorRuns.WishFollowsCalls` | net/Connector.cpp:26-45 | The connector wants to connect exactly when the last of start, restart and stop was not stop. |
| `Connectors.StepKeeps` | net/Connector.cpp:31-174 | Each calm step keeps one attempt at most, the reset of its channel queued, and sockets and delays in order. |
| `Connectors.StepKeepsIff` | net/Connector.cpp:26-112 | Calm is exact: a step keeps all that if and only if it is calm, given what connect(2) says. |
| `Connectors.RestartsSafelyIff` | net/Connector.cpp:97-103 | After restart() no assert can fail, whatever connect(2) says and the loop does next, if and only if nothing was on its way and channel_ was reset. |
| `Connectors.StartsSafelyIff` | net/Connector.cpp:26-40 | After start() in the loop likewise, if and only if that held and the connector was disconnected; after start() from elsewhere, if and only if it was disconnected with no start or retry on its way. |
| `Connectors.RestartsRightIff` | net/Connector.cpp:97-103 | restart() keeps the invariant whatever connect(2) says if and only if the connector is quiet. |
| `Connectors.StartsRightIff` | net/Connector.cpp:26-40 | start() keeps it if and only if the connector is quiet and disconnected, or from elsewhere ready. |
| `Connectors.CallAssertsIff` | net/Connector.cpp:97-112 | The asserts of the call itself hold if and only if channel_ is null, and for start() the connector disconnected. |
| `Connectors.UnquietRestartFails` | net/Connector.cpp:97-103 | From every state in order with a retry timer, a queued start, a queued stop or a channel not yet reset, restart() can be followed by a failing assert. |
| `Connectors.UnreadyStartFails` | net/Connector.cpp:26-40 | The same for start(), in the loop or from elsewhere. |
| `Connectors.DispatchKeeps` | net/Connector.cpp:126-160 | One dispatch with an error and then a write event ends the attempt once. |
| `Connectors.AfterEnd` | net/Connector.cpp:126-160 | After the error event of a dispatch the write event finds nothing to do: no second close. |
| `Connectors.TimerInOrderIff` | net/Connector.cpp:31-40 | When a retry timer fires its asserts hold if and only if it is not to connect, fails at once, or channel_ has been reset; the last is so unless it fires in the iteration that set it. |
| `Connectors.SlowHandlerFails` | net/Connector.cpp:105-107 | A run in which a timer that fires in the iteration that set it finds channel_ still there. |
| `Connectors.RestartBeforeRetryFails` | net/Connector.cpp:97-103 | A run in which restart() before an outstanding retry makes the retry fail its assert. |
| `Connectors.StopOvertakenByStart` | net/Connector.cpp:42-54 | A run in which a stop still queued at the next start ends that attempt and retries it. |
| `ConnectorClass.Connector.Connect` | net/Connector.cpp:56-95 | On the object: a socket is made and kept, retried or closed by the class of errno. |
| `ConnectorClass.Connector.Start` | net/Connector.cpp:26-29 | On the object: wants to connect, at once or through the queue. |
| `ConnectorClass.Connector.StartInLoop` | net/Connector.cpp:31-40 | On the object: connects if it still wants to, and checks that it is disconnected. |
| `ConnectorClass.Connector.Stop` | net/Connector.cpp:42-45 | On the object: no longer wants to connect, and queues the rest. |
| `ConnectorClass.Connector.Restart` | net/Connector.cpp:97-103 | On the object: back to the first delay, and connects. |
| `ConnectorClass.Connector.BeginConnecting` | net/Connector.cpp:105-112 | On the object: holds the socket in a registered channel, and checks that there was none. |
| `ConnectorClass.Connector.RemoveAndResetChannel` | net/Connector.cpp:114-120 | On the object: unregisters the channel, queues its reset, and gives back its socket. |
| `ConnectorClass.Connector.Retry` | net/Connector.cpp:162-174 | On the object: close, kDisconnected, and a timer with a doubled delay unless stopped. |
| `ConnectorClass.Connector.HandleWrite` | net/Connector.cpp:126-151 | On the object: the channel goes, and the socket is handed over, closed or retried. |
| `ConnectorClass.Connector.HandleError` | net/Connector.cpp:153-160 | On the object: the attempt ends and is retried. |
| `ConnectorClass.Connector.StopInLoop` | net/Connector.cpp:47-54 | On the object: an attempt under way ends. |
| `ConnectorClass.Connector.HandleEvent` | net/Channel.cpp:80-90 | On the object: error before write, as one step that keeps the invariant. |
| `ConnectorClass.Connector.RunFunctor` | net/EventLoop.cpp:207-209 | On the object: the functor at the head of the batch, as one step that keeps the invariant. |
| `ConnectorClass.Connector.TimerFires` | net/Connector.cpp:168 | On the object: a retry timer is spent and calls startInLoop. |
| `ConnectorClass.Connector.Poll` | net/EventLoop.cpp:83-84 | On the object: poll returns, and retry timers set before it are old. |
| `ConnectorClass.Connector.EndHandling` | net/EventLoop.cpp:94-96 | On the object: the pending functors become the batch. |
| `LogStreams.IntRoundTrip` | base/LogStream.cpp:32-52 | Every integer is read back from its text, which is canonical: no leading zero, a minus sign only before a positive number. |
| `LogStreams.IntTextUnique` | base/LogStream.cpp:32-52 | That text is the only canonical one. |
| `LogStreams.NumeralRoundTrip` | base/LogStream.cpp:54-69 | The same for a numeral in base 10 or 16. |
| `LogStreams.NumeralLengthIff` | base/LogStream.cpp:54-69 | A numeral has at most k digits if and only if its value is below the base to the k. |
| `LogStreams.MirroredDigit` | base/LogStream.cpp:24-40 | The mirrored table gives the right digit for remainders of either sign. |
| `LogStreams.LongestInt` | base/LogStream.cpp:215-220 | Any signed or unsigned 64-bit integer takes at most 20 characters, as many as the most negative. |
| `LogStreams.ReverseInPlace` | base/LogStream.cpp:49 | The range is reversed in place and nothing else changes. |
| `LogStreams.PutDigits` | base/LogStream.cpp:33-42 | The do-while loop writes the digits lowest first, whatever the sign. |
| `LogStreams.PutHexDigits` | base/LogStream.cpp:54-63 | The same for hexadecimal digits. |
| `LogStreams.Convert` | base/LogStream.cpp:32-52 | Exactly the decimal text and a terminating zero, and no other byte of the buffer. |
| `LogStreams.ConvertHex` | base/LogStream.cpp:54-69 | Exactly the hexadecimal text and a terminating zero, and no other byte of the buffer. |
| `LogStreams.LogStream.FormatInteger` | base/LogStream.cpp:214-220 | The whole text or, with fewer than 32 characters left, nothing; text and zero stay inside the 4000 bytes. |
| `LogStreams.LogStream.FormatPointer` | base/LogStream.cpp:262-272 | The same for a pointer, in hexadecimal after 0x. |
| `LogStreams.LogStream.Append` | base/LogStream.h:28-35 | All of the bytes or, when they would not leave room for one more, none. |
| `LogStreams.WholePrefix` | base/LogStream.cpp:214-220 | A series of numbers leaves a prefix of them, each whole: the first dropped is the end. |

## Left out

- `net/Poller/PollPoller.cpp`: its update tests `events() < 0` (net/Poller/PollPoller.cpp:56), which never holds; the array is modelled from `reactor/s13/Poller.cpp`.
- "Watched if and only if it has events" for the pollfd array: false, see `PollArray.SilencedStaysDeaf`; `PollArray.DeafIff` is the exact condition.
- `TcpServer` destruction (net/TcpServer.cpp:25-34): not a step of the life cycle; `Lifecycle.DestroysInOrderIff` says which connections it may hand to connectDestroyed.
- OutputStream.NeverEarly: speaks of connections not yet kDisconnected; after that nothing is sent.
- EventLoopClass.EventLoop.LoopFor: covers any finite number of iterations; that loop() ends is not claimed.
- Data races on the plain `state_`, `quit_` and `connect_`: each check-and-set of shutdown and forceClose is one step.
- Functors bound to a raw `this` (shutdownInLoop, startReadInLoop, sendInLoop across threads), `tie_` and shared_ptr lifetimes: a connection stays in the model after it is destroyed.
- The message and error callbacks: what user code does in them are steps of their own, taken after the dispatch.
- A cancel that the loop runs before the add of the same timer, queued by another thread: the code does not order them.
- Floating point: `formatSI`, `formatIEC`, `addTime` and intervals in seconds; intervals are whole microseconds of at least one.
- The growth of `events_` in EPollPoller::poll, and what poll itself waits for.
- forceCloseWithDelay, setTcpNoDelay, and `TcpClient`.
- The network byte order helpers of `Buffer`, and retrieveUtil.
- Reading a zone file beyond the loop that pairs transitions with local times, and zone names.
- Round-robin choice of the io loop: any loop may be chosen.
- Logging back end, files, ProcessInfo, InetAddress, SocketsOps, threads, mutexes, conditions, latches, Singleton: I/O or thin wrappers.
- `reactor/s00` to `reactor/s12`, and the rest of `reactor/s13`: earlier copies of what is modelled from `net/`.
