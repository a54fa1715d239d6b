/** base/TimeZone.cpp: zone transitions, and local time to and from UTC. */
module TimeZone {
  import opened Calendar
  import opened UtcTime

  /** From `gmttime` on, the zone follows `localtimes[localtimeIdx]`; `localtime` is that instant on the new clock. */
  datatype Transition = Transition(gmttime: int, localtime: int, localtimeIdx: nat)

  datatype Localtime = Localtime(gmtOffset: int, isDst: bool, arrbIdx: nat)

  datatype Data = Data(transitions: seq<Transition>, localtimes: seq<Localtime>, abbreviation: string)

  // ---- Well-formed zones ----

  predicate WellFormed(data: Data) {
    && |data.localtimes| > 0
    && (forall k :: 0 <= k < |data.localtimes| ==> data.localtimes[k].arrbIdx <= |data.abbreviation|)
    && (forall i :: 0 <= i < |data.transitions| ==> Consistent(data.transitions[i], data.localtimes))
  }

  predicate Consistent(tr: Transition, localtimes: seq<Localtime>) {
    && tr.localtimeIdx < |localtimes|
    && tr.localtime == tr.gmttime + localtimes[tr.localtimeIdx].gmtOffset
  }

  /** The clock in force in period `p`: after transition `p`, or before the first one when `p` is -1. */
  function Clock(data: Data, p: int): Localtime
    requires WellFormed(data) && -1 <= p < |data.transitions|
  {
    if p < 0 then data.localtimes[0] else data.localtimes[data.transitions[p].localtimeIdx]
  }

  function Offset(data: Data, p: int): int
    requires WellFormed(data) && -1 <= p < |data.transitions|
  {
    Clock(data, p).gmtOffset
  }

  /** How far the offset moves at transition `k`. */
  function Jump(data: Data, k: int): (n: nat)
    requires WellFormed(data) && 0 <= k < |data.transitions|
  {
    var d := Offset(data, k) - Offset(data, k - 1);
    if d < 0 then -d else d
  }

  /** Transitions ascend (RFC 8536, section 3.2), each period lasting longer than the offset changes at its ends. */
  predicate Spaced(data: Data)
    requires WellFormed(data)
  {
    forall k :: 0 <= k < |data.transitions| - 1 ==>
      data.transitions[k + 1].gmttime - data.transitions[k].gmttime > Jump(data, k) + Jump(data, k + 1)
  }

  // ---- The last transition at or before an instant ----

  function Key(tr: Transition, gmt: bool): int {
    if gmt then tr.gmttime else tr.localtime
  }

  predicate Ascending(ts: seq<Transition>, gmt: bool) {
    forall i, j :: 0 <= i < j < |ts| ==> Key(ts[i], gmt) < Key(ts[j], gmt)
  }

  /** The last transition whose key is at most `x`, or -1. */
  function LastAtOrBefore(ts: seq<Transition>, gmt: bool, x: int): (p: int)
    ensures -1 <= p < |ts|
    ensures p >= 0 ==> Key(ts[p], gmt) <= x
    ensures forall k :: p < k < |ts| ==> x < Key(ts[k], gmt)
  {
    if |ts| == 0 then -1
    else if Key(ts[|ts| - 1], gmt) <= x then |ts| - 1
    else LastAtOrBefore(ts[..|ts| - 1], gmt, x)
  }

  lemma LastIsUnique(ts: seq<Transition>, gmt: bool, x: int, p: int)
    requires Ascending(ts, gmt) && -1 <= p < |ts|
    requires p >= 0 ==> Key(ts[p], gmt) <= x
    requires p + 1 < |ts| ==> x < Key(ts[p + 1], gmt)
    ensures LastAtOrBefore(ts, gmt, x) == p
  {
    var q := LastAtOrBefore(ts, gmt, x);
    assert q >= 0 && p + 1 < |ts| && p + 1 != q ==> Key(ts[p + 1], gmt) != Key(ts[q], gmt);
  }

  function PeriodAt(data: Data, gmt: bool, x: int): (p: int)
    ensures -1 <= p < |data.transitions|
  {
    LastAtOrBefore(data.transitions, gmt, x)
  }

  // ---- base/TimeZone.cpp, step by step ----

  /** The loop of readTimeZoneFile that pairs every transition with its local time. */
  method BuildTransitions(trans: seq<int>, localtimes: seq<nat>, clocks: seq<Localtime>) returns (ts: seq<Transition>)
    requires |trans| == |localtimes| && forall i :: 0 <= i < |localtimes| ==> localtimes[i] < |clocks|
    ensures |ts| == |trans|
    ensures forall i :: 0 <= i < |ts| ==>
      ts[i].gmttime == trans[i] && ts[i].localtimeIdx == localtimes[i] && Consistent(ts[i], clocks)
  {
    ts := [];
    for i := 0 to |trans|
      invariant |ts| == i
      invariant forall k :: 0 <= k < i ==>
        ts[k].gmttime == trans[k] && ts[k].localtimeIdx == localtimes[k] && Consistent(ts[k], clocks)
    {
      var localIdx := localtimes[i];
      var localtime := trans[i] + clocks[localIdx].gmtOffset;
      ts := ts + [Transition(trans[i], localtime, localIdx)];
    }
  }

  /** std::lower_bound: the first transition not below `x`. */
  method LowerBound(ts: seq<Transition>, gmt: bool, x: int) returns (first: nat)
    requires Ascending(ts, gmt)
    ensures first <= |ts|
    ensures forall k :: 0 <= k < first ==> Key(ts[k], gmt) < x
    ensures forall k :: first <= k < |ts| ==> x <= Key(ts[k], gmt)
  {
    first := 0;
    var count: nat := |ts|;
    while count > 0
      invariant first + count <= |ts|
      invariant forall k :: 0 <= k < first ==> Key(ts[k], gmt) < x
      invariant forall k :: first + count <= k < |ts| ==> x <= Key(ts[k], gmt)
    {
      var step := count / 2;
      if Key(ts[first + step], gmt) < x {
        first := first + step + 1;
        count := count - (step + 1);
      } else {
        count := step;
      }
    }
  }

  /** findLocaltime finds the clock of the last transition at or before `x`, in either order. */
  method FindLocaltime(data: Data, gmt: bool, x: int) returns (local: Localtime)
    requires WellFormed(data) && Ascending(data.transitions, gmt)
    ensures local == Clock(data, PeriodAt(data, gmt, x))
  {
    var ts := data.transitions;
    if |ts| == 0 || x < Key(ts[0], gmt) {
      local := data.localtimes[0];
    } else {
      var it := LowerBound(ts, gmt, x);
      if it != |ts| {
        if x != Key(ts[it], gmt) {
          assert it != 0;
          it := it - 1;
        }
        LastIsUnique(ts, gmt, x, it);
        local := data.localtimes[ts[it].localtimeIdx];
      } else {
        local := data.localtimes[ts[|ts| - 1].localtimeIdx];
      }
    }
  }

  /** The zone abbreviation that starts at `i`, up to its terminating NUL. */
  function CString(s: string, i: nat): string
    requires i <= |s|
    decreases |s| - i
  {
    if i == |s| || s[i] == '\0' then "" else [s[i]] + CString(s, i + 1)
  }

  lemma ZoneNameStarts(data: Data, p: int)
    requires WellFormed(data) && -1 <= p < |data.transitions|
    ensures Clock(data, p).arrbIdx <= |data.abbreviation|
  {
    assert p >= 0 ==> Consistent(data.transitions[p], data.localtimes);
  }

  /** Local broken-down time at `t`: UTC fields of the shifted clock, labelled with that clock. */
  function LocalFields(data: Data, t: int): (tm: Tm)
    requires WellFormed(data)
  {
    var clock := Clock(data, PeriodAt(data, true, t));
    UtcFields(t + clock.gmtOffset, true).(
      isdst := clock.isDst, gmtoff := clock.gmtOffset, zone := CString(data.abbreviation, clock.arrbIdx))
  }

  method ToLocalTime(data: Data, secondsSinceEpoch: int) returns (localTime: Tm)
    requires WellFormed(data) && Ascending(data.transitions, true)
    ensures localTime == LocalFields(data, secondsSinceEpoch)
  {
    hide UtcFields, PeriodAt, Ascending, CString, Clock, WellFormed;
    ZoneNameStarts(data, PeriodAt(data, true, secondsSinceEpoch));
    var local := FindLocaltime(data, true, secondsSinceEpoch);
    var localSeconds := secondsSinceEpoch + local.gmtOffset;
    localTime := ToUtcTime(localSeconds, true);
    localTime := localTime.(isdst := local.isDst);
    localTime := localTime.(gmtoff := local.gmtOffset);
    localTime := localTime.(zone := CString(data.abbreviation, local.arrbIdx));
  }

  /** A DST reading that the clock found for it does not give back: the second pass through the repeated hour. */
  predicate RereadsAsStandard(data: Data, localTm: Tm, guess: int)
    requires WellFormed(data)
  {
    var tryTm := LocalFields(data, guess);
    !tryTm.isdst && tryTm.hour == localTm.hour && tryTm.min == localTm.min
  }

  /** The instant that fromLocalTime picks for a local reading. */
  function InstantOf(data: Data, localTm: Tm): (t: int)
    requires WellFormed(data)
  {
    var seconds := FromUtcFields(localTm);
    var guess := seconds - Offset(data, PeriodAt(data, false, seconds));
    if localTm.isdst && RereadsAsStandard(data, localTm, guess) then guess - 3600 else guess
  }

  method FromLocalTime(data: Data, localTm: Tm) returns (t: int)
    requires WellFormed(data) && Ascending(data.transitions, true) && Ascending(data.transitions, false)
    ensures t == InstantOf(data, localTm)
  {
    hide UtcFields, FromUtcFields, PeriodAt, Ascending, WellFormed, LocalFields;
    var seconds := FromUtcFields(localTm);
    var local := FindLocaltime(data, false, seconds);
    if localTm.isdst {
      var tryTm := ToLocalTime(data, seconds - local.gmtOffset);
      if !tryTm.isdst && tryTm.hour == localTm.hour && tryTm.min == localTm.min {
        seconds := seconds - 3600;
      }
    }
    t := seconds - local.gmtOffset;
  }

  // ---- Spaced zones are sorted in both orders ----

  /** What spacing buys at one gap: both clocks ascend, and the jumps stay inside the periods around them. */
  lemma Gap(data: Data, k: int)
    requires WellFormed(data) && Spaced(data) && 0 <= k < |data.transitions| - 1
    ensures var ts := data.transitions;
      && ts[k].gmttime + Jump(data, k) < ts[k + 1].gmttime
      && ts[k].localtime < ts[k + 1].localtime
      && ts[k].gmttime + Offset(data, k - 1) < ts[k + 1].localtime
  {
    var ts := data.transitions;
    assert Consistent(ts[k], data.localtimes) && Consistent(ts[k + 1], data.localtimes);
    assert ts[k + 1].gmttime - ts[k].gmttime > Jump(data, k) + Jump(data, k + 1);
  }

  lemma {:induction false} KeysAscend(data: Data, gmt: bool, i: int, j: int)
    requires WellFormed(data) && Spaced(data) && 0 <= i < j < |data.transitions|
    ensures Key(data.transitions[i], gmt) < Key(data.transitions[j], gmt)
    decreases j - i
  {
    Gap(data, j - 1);
    if i + 1 < j {
      KeysAscend(data, gmt, i, j - 1);
    }
  }

  /** The precondition of both binary searches. */
  lemma SpacedAscends(data: Data, gmt: bool)
    requires WellFormed(data) && Spaced(data)
    ensures Ascending(data.transitions, gmt)
  {
    var ts := data.transitions;
    forall i, j | 0 <= i < j < |ts|
      ensures Key(ts[i], gmt) < Key(ts[j], gmt)
    {
      KeysAscend(data, gmt, i, j);
    }
  }

  // ---- The local round trip ----

  /** The local reading at `t` is shown again after the next transition sets the clock back. */
  predicate Repeats(data: Data, t: int)
    requires WellFormed(data)
  {
    var p := PeriodAt(data, true, t);
    p + 1 < |data.transitions| && data.transitions[p + 1].localtime <= t + Offset(data, p)
  }

  /** Transition `k` ends daylight saving by setting the clock back one hour. */
  predicate EndsDst(data: Data, k: int)
    requires WellFormed(data) && 0 <= k < |data.transitions|
  {
    Clock(data, k - 1).isDst && !Clock(data, k).isDst && Offset(data, k - 1) - Offset(data, k) == 3600
  }

  /** Searching by local time finds the period of `t`, or the next one when the reading repeats. */
  lemma LocalPeriod(data: Data, t: int)
    requires WellFormed(data) && Spaced(data)
    ensures var p := PeriodAt(data, true, t);
      PeriodAt(data, false, t + Offset(data, p)) == if Repeats(data, t) then p + 1 else p
  {
    hide Spaced;
    var ts := data.transitions;
    SpacedAscends(data, false);
    var p := PeriodAt(data, true, t);
    var reading := t + Offset(data, p);
    if p >= 0 {
      assert Consistent(ts[p], data.localtimes);
    }
    if Repeats(data, t) && p + 2 < |ts| {
      Gap(data, p + 1);
    }
    assert p + 1 < |ts| ==> t < Key(ts[p + 1], true);
    LastIsUnique(ts, false, reading, if Repeats(data, t) then p + 1 else p);
  }

  /** Just before a transition that sets the clock back, the same reading later belongs to the next period. */
  lemma RepeatedReading(data: Data, t: int)
    requires WellFormed(data) && Spaced(data) && Repeats(data, t)
    ensures var p := PeriodAt(data, true, t);
      && Jump(data, p + 1) == Offset(data, p) - Offset(data, p + 1) > 0
      && PeriodAt(data, true, t + Jump(data, p + 1)) == p + 1
  {
    hide Spaced;
    var ts := data.transitions;
    SpacedAscends(data, true);
    var p := PeriodAt(data, true, t);
    assert Consistent(ts[p + 1], data.localtimes);
    assert Key(ts[p + 1], true) > t;
    if p + 2 < |ts| {
      Gap(data, p + 1);
    }
    LastIsUnique(ts, true, t + Jump(data, p + 1), p + 1);
  }

  lemma ReadingOf(data: Data, t: int)
    requires WellFormed(data)
    requires t + Offset(data, PeriodAt(data, true, t)) >= FIRST_SECOND
    ensures FromUtcFields(LocalFields(data, t)) == t + Offset(data, PeriodAt(data, true, t))
    ensures LocalFields(data, t).isdst == Clock(data, PeriodAt(data, true, t)).isDst
  {
    hide UtcFields, LastAtOrBefore, FromUtcTime, CString, WellFormed;
    SecondsRoundTrip(t + Offset(data, PeriodAt(data, true, t)), true);
  }

  /** fromLocalTime undoes toLocalTime at `t`. */
  predicate ReadsBack(data: Data, t: int)
    requires WellFormed(data)
  {
    InstantOf(data, LocalFields(data, t)) == t
  }

  predicate Covered(data: Data, t: int)
    requires WellFormed(data)
  {
    t + Offset(data, PeriodAt(data, true, t)) >= FIRST_SECOND
  }

  lemma CStringIs(s: string, i: nat)
    requires i <= |s|
    ensures var z := CString(s, i);
      && i + |z| <= |s| && z == s[i..i + |z|] && '\0' !in z
      && (i + |z| < |s| ==> s[i + |z|] == '\0')
    decreases |s| - i
  {
    if i < |s| && s[i] != '\0' {
      CStringIs(s, i + 1);
      var z := CString(s, i + 1);
      assert s[i..i + 1 + |z|] == [s[i]] + s[i + 1..i + 1 + |z|];
    }
  }

  predicate SameReading(a: Tm, b: Tm) {
    DateOf(a) == DateOf(b) && a.hour == b.hour && a.min == b.min && a.sec == b.sec
  }

  lemma SameSecond(a: Tm, b: Tm)
    requires SameReading(a, b)
    ensures FromUtcFields(a) == FromUtcFields(b)
  {
    hide JulianDayNumber;
  }

  /** The labels of a local time belong to it: its fields taken as UTC less its own offset are the instant again, and
      offset, daylight saving flag and zone abbreviation are those of the clock in force. */
  lemma LabelsName(data: Data, t: int)
    requires WellFormed(data) && Covered(data, t)
    ensures var tm := LocalFields(data, t); var clock := Clock(data, PeriodAt(data, true, t));
      && FromUtcFields(tm) - tm.gmtoff == t && tm.isdst == clock.isDst
      && clock.arrbIdx + |tm.zone| <= |data.abbreviation|
      && tm.zone == data.abbreviation[clock.arrbIdx..clock.arrbIdx + |tm.zone|] && '\0' !in tm.zone
      && (clock.arrbIdx + |tm.zone| < |data.abbreviation| ==> data.abbreviation[clock.arrbIdx + |tm.zone|] == '\0')
  {
    hide UtcFields, PeriodAt, WellFormed, CString, FromUtcFields, JulianDayNumber;
    var p := PeriodAt(data, true, t);
    ZoneNameStarts(data, p);
    CStringIs(data.abbreviation, Clock(data, p).arrbIdx);
    SecondsRoundTrip(t + Offset(data, p), true);
    SameSecond(UtcFields(t + Offset(data, p), true), LocalFields(data, t));
  }

  /** fromLocalTime gives back the instant exactly when its reading does not repeat,
      or repeats because daylight saving ended by an hour. */
  lemma ReadsBackIff(data: Data, t: int)
    requires WellFormed(data) && Spaced(data) && Covered(data, t)
    ensures ReadsBack(data, t) <==> (Repeats(data, t) ==> EndsDst(data, PeriodAt(data, true, t) + 1))
  {
    hide UtcFields, FromUtcFields, LastAtOrBefore, PeriodAt, Spaced, CString;
    ReadingOf(data, t);
    LocalPeriod(data, t);
    if Repeats(data, t) {
      RepeatedReading(data, t);
    }
  }

  /** The last second before a transition that sets the clock back is repeated. */
  lemma LastSecond(data: Data, k: int)
    requires WellFormed(data) && Spaced(data)
    requires 0 <= k < |data.transitions| && Offset(data, k) < Offset(data, k - 1)
    ensures var t := data.transitions[k].gmttime - 1;
      PeriodAt(data, true, t) == k - 1 && Repeats(data, t)
  {
    hide Spaced;
    SpacedAscends(data, true);
    var ts := data.transitions;
    var t := ts[k].gmttime - 1;
    assert Consistent(ts[k], data.localtimes);
    if k > 0 {
      assert Key(ts[k - 1], true) < Key(ts[k], true);
    }
    LastIsUnique(ts, true, t, k - 1);
  }

  /** A zone that reads back everywhere sets its clock back only to end daylight saving by an hour. */
  lemma ReadsBackOnlyIf(data: Data, k: int)
    requires WellFormed(data) && Spaced(data)
    requires 0 <= k < |data.transitions| && Offset(data, k) < Offset(data, k - 1)
    requires Covered(data, data.transitions[k].gmttime - 1)
    ensures ReadsBack(data, data.transitions[k].gmttime - 1) <==> EndsDst(data, k)
  {
    hide ReadsBack, Covered, PeriodAt, Spaced;
    LastSecond(data, k);
    ReadsBackIff(data, data.transitions[k].gmttime - 1);
  }

  /** Only ever sets the clock back to end daylight saving by an hour. */
  predicate GoesBackOnlyAfterDst(data: Data)
    requires WellFormed(data)
  {
    forall k :: 0 <= k < |data.transitions| && Offset(data, k) < Offset(data, k - 1) ==> EndsDst(data, k)
  }

  /** Every instant of a zone is read back if, and only if, the zone goes back only after daylight saving. */
  lemma ZoneReadsBackIff(data: Data)
    requires WellFormed(data) && Spaced(data)
    requires forall k :: 0 <= k < |data.transitions| ==> Covered(data, data.transitions[k].gmttime - 1)
    ensures (forall t :: Covered(data, t) ==> ReadsBack(data, t)) <==> GoesBackOnlyAfterDst(data)
  {
    hide ReadsBack, Covered, PeriodAt, Spaced, EndsDst;
    forall k | 0 <= k < |data.transitions| && Offset(data, k) < Offset(data, k - 1)
      ensures ReadsBack(data, data.transitions[k].gmttime - 1) <==> EndsDst(data, k)
    {
      ReadsBackOnlyIf(data, k);
    }
    forall t | Covered(data, t)
      ensures GoesBackOnlyAfterDst(data) ==> ReadsBack(data, t)
    {
      ReadsBackIff(data, t);
      if Repeats(data, t) {
        RepeatedReading(data, t);
      }
    }
  }

  /** From the first transition on, every instant is read back when each later transition that sets the clock
      back ends daylight saving by an hour; nothing is asked of the clock before the first transition. */
  lemma ReadsBackFromFirstTransition(data: Data, t: int)
    requires WellFormed(data) && Spaced(data) && Covered(data, t)
    requires |data.transitions| > 0 && data.transitions[0].gmttime <= t
    requires forall k :: 1 <= k < |data.transitions| && Offset(data, k) < Offset(data, k - 1) ==> EndsDst(data, k)
    ensures ReadsBack(data, t)
  {
    hide ReadsBack, Covered, Spaced, EndsDst;
    ReadsBackIff(data, t);
    assert Key(data.transitions[0], true) <= t;
    if Repeats(data, t) {
      RepeatedReading(data, t);
    }
  }

  // ---- What fromLocalTime does with any reading ----

  /** The clock shows local second `s` at instant `t`. */
  predicate Shows(data: Data, t: int, s: int)
    requires WellFormed(data)
  {
    t + Offset(data, PeriodAt(data, true, t)) == s
  }

  /** The clock is set forward over `s`: it is not yet shown when the next transition comes. */
  predicate Skipped(data: Data, s: int)
    requires WellFormed(data)
  {
    var p := PeriodAt(data, false, s);
    p + 1 < |data.transitions| && data.transitions[p + 1].gmttime + Offset(data, p) <= s
  }

  /** What fromLocalTime tries first. */
  function Guess(data: Data, s: int): int
    requires WellFormed(data)
  {
    s - Offset(data, PeriodAt(data, false, s))
  }

  /** The guess lies in the period it was made for, or in the next one when the reading is skipped. */
  lemma GuessPeriod(data: Data, s: int)
    requires WellFormed(data) && Spaced(data)
    ensures var p := PeriodAt(data, false, s);
      PeriodAt(data, true, Guess(data, s)) == if Skipped(data, s) then p + 1 else p
  {
    hide Spaced;
    var ts := data.transitions;
    SpacedAscends(data, true);
    var p := PeriodAt(data, false, s);
    if p >= 0 {
      assert Consistent(ts[p], data.localtimes);
    }
    if p + 1 < |ts| {
      assert s < Key(ts[p + 1], false);
      assert Consistent(ts[p + 1], data.localtimes);
    }
    if Skipped(data, s) && p + 2 < |ts| {
      Gap(data, p + 1);
    }
    LastIsUnique(ts, true, Guess(data, s), if Skipped(data, s) then p + 1 else p);
  }

  lemma ShownIsNotSkipped(data: Data, t: int, s: int)
    requires WellFormed(data) && Spaced(data) && Shows(data, t, s)
    ensures !Skipped(data, s)
  {
    LocalPeriod(data, t);
    hide Spaced, LastAtOrBefore;
    var ts := data.transitions;
    var q := PeriodAt(data, true, t);
    assert q + 1 < |ts| ==> t < Key(ts[q + 1], true);
    if Repeats(data, t) && q + 2 < |ts| {
      Gap(data, q + 1);
    }
  }

  /** Some instant shows a reading if and only if the clock is not set forward over it. */
  lemma ShownIff(data: Data, s: int)
    requires WellFormed(data) && Spaced(data)
    ensures (exists t :: Shows(data, t, s)) <==> !Skipped(data, s)
  {
    if t :| Shows(data, t, s) {
      ShownIsNotSkipped(data, t, s);
    } else {
      GuessPeriod(data, s);
      hide Skipped, PeriodAt, WellFormed;
      if !Skipped(data, s) {
        assert Shows(data, Guess(data, s), s);
      }
    }
  }

  /** fromLocalTime takes the reading for the first pass through a repeated hour. */
  predicate BacksUp(data: Data, localTm: Tm)
    requires WellFormed(data)
  {
    localTm.isdst && RereadsAsStandard(data, localTm, Guess(data, FromUtcFields(localTm)))
  }

  /** The clock of `s` went back by exactly an hour, less than an hour before `s`. */
  predicate HourBack(data: Data, s: int)
    requires WellFormed(data)
  {
    var p := PeriodAt(data, false, s);
    && p >= 0 && Offset(data, p - 1) - Offset(data, p) == 3600
    && Guess(data, s) - 3600 < data.transitions[p].gmttime
  }

  /** An hour before the guess, the clock shows the same reading exactly after such a step back. */
  lemma HourBackIff(data: Data, s: int)
    requires WellFormed(data) && Spaced(data)
    ensures Shows(data, Guess(data, s) - 3600, s) <==> HourBack(data, s)
  {
    var ts := data.transitions;
    var p := PeriodAt(data, false, s);
    var t := Guess(data, s) - 3600;
    if HourBack(data, s) {
      PeriodBefore(data, s);
    }
    if Shows(data, t, s) {
      LocalPeriod(data, t);
      hide Spaced, LastAtOrBefore;
      assert p < |ts| && PeriodAt(data, true, t) == p - 1;
      assert t < Key(ts[p], true);
    }
  }

  lemma PeriodBefore(data: Data, s: int)
    requires WellFormed(data) && Spaced(data) && HourBack(data, s)
    ensures PeriodAt(data, true, Guess(data, s) - 3600) == PeriodAt(data, false, s) - 1
  {
    var ts := data.transitions;
    var p := PeriodAt(data, false, s);
    SpacedAscends(data, true);
    assert Consistent(ts[p], data.localtimes) && Key(ts[p], false) <= s;
    if p > 0 {
      assert ts[p - 1 + 1].gmttime - ts[p - 1].gmttime > Jump(data, p - 1) + Jump(data, p);
    }
    hide Spaced, LastAtOrBefore;
    LastIsUnique(ts, true, Guess(data, s) - 3600, p - 1);
  }

  /** The instant that fromLocalTime returns shows the reading it was given if and only if the reading is not skipped,
      or, when it backs up, the clock did go back by an hour. */
  lemma AnswersIff(data: Data, localTm: Tm)
    requires WellFormed(data) && Spaced(data)
    ensures var s := FromUtcFields(localTm);
      Shows(data, InstantOf(data, localTm), s) <==>
      if BacksUp(data, localTm) then HourBack(data, s) else !Skipped(data, s)
  {
    hide FromUtcFields, RereadsAsStandard, PeriodAt, Spaced, Skipped, HourBack, WellFormed;
    var s := FromUtcFields(localTm);
    if BacksUp(data, localTm) {
      HourBackIff(data, s);
    } else {
      GuessPeriod(data, s);
      if Shows(data, Guess(data, s), s) {
        ShownIsNotSkipped(data, Guess(data, s), s);
      }
    }
  }

  lemma ShowsSameReading(data: Data, t: int, localTm: Tm)
    requires WellFormed(data) && InRange(localTm)
    ensures SameReading(LocalFields(data, t), localTm) <==> Shows(data, t, FromUtcFields(localTm))
  {
    hide UtcFields, PeriodAt, CString, WellFormed, InRange, JulianDayNumber;
    var x := t + Offset(data, PeriodAt(data, true, t));
    if Shows(data, t, FromUtcFields(localTm)) {
      FieldsRoundTrip(localTm, true);
    } else if SameReading(LocalFields(data, t), localTm) {
      SameInRange(UtcFields(x, true), localTm);
      SameSecond(UtcFields(x, true), localTm);
      FieldsInRangeIff(x, true);
      SecondsRoundTrip(x, true);
    }
  }

  lemma SameInRange(a: Tm, b: Tm)
    requires SameReading(a, b) && InRange(b)
    ensures InRange(a)
  {
  }

  /** toLocalTime undoes fromLocalTime, on any real date and time of day, under exactly that condition. */
  lemma ReadingComesBackIff(data: Data, localTm: Tm)
    requires WellFormed(data) && Spaced(data) && InRange(localTm)
    ensures var s := FromUtcFields(localTm);
      SameReading(LocalFields(data, InstantOf(data, localTm)), localTm) <==>
      if BacksUp(data, localTm) then HourBack(data, s) else !Skipped(data, s)
  {
    hide LocalFields, InstantOf, Spaced, WellFormed, Skipped, HourBack, BacksUp, InRange, FromUtcFields;
    AnswersIff(data, localTm);
    ShowsSameReading(data, InstantOf(data, localTm), localTm);
  }
}
