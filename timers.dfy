/**
 * The per-code stopwatches of the timer fields: the state of one timer, the
 * start/stop toggle (`toggleTimer`, src/App.tsx:489-513) and the periodic tick
 * that folds the running interval into `elapsed` (src/App.tsx:533-549). The
 * clock `Date.now()` is the parameter `now`, in integer milliseconds.
 */
module Timers {
  import opened Wrappers
  import opened JsObjects

  datatype TimerState = TimerState(isRunning: bool, startTime: int, elapsed: int)

  type TimerTable = JsObject<TimerState>

  /** The state assumed for a code that has never been toggled. */
  const Unstarted := TimerState(false, 0, 0)

  /** The time a timer shows at `now`: the stored total plus the interval running since `startTime`. */
  function Shown(t: TimerState, now: int): (r: int)
    ensures !t.isRunning ==> r == t.elapsed
    ensures t.isRunning && t.startTime <= now ==> r >= t.elapsed
  {
    if t.isRunning then t.elapsed + (now - t.startTime) else t.elapsed
  }

  /** One timer toggled at `now`: a stopped timer starts, a running one stops and banks its interval. */
  function ToggleOne(t: TimerState, now: int): (r: TimerState)
    ensures r.isRunning == !t.isRunning
    ensures !t.isRunning ==> r.startTime == now && r.elapsed == t.elapsed
    ensures t.isRunning ==> r.startTime == t.startTime && r.elapsed == Shown(t, now)
    ensures Shown(r, now) == Shown(t, now)
  {
    if t.isRunning then t.(isRunning := false, elapsed := t.elapsed + (now - t.startTime))
    else t.(isRunning := true, startTime := now)
  }

  /** `toggleTimer(code)`: toggles the timer under `code`, creating it if it is missing. */
  function Toggle(timers: TimerTable, code: string, now: int): (r: TimerTable)
    requires timers.Valid()
    ensures r.Valid()
    ensures r.entries.Keys == timers.entries.Keys + {code}
    ensures r.Get(code) == Some(ToggleOne(timers.Get(code).GetOr(Unstarted), now))
    ensures forall k :: k != code ==> r.Get(k) == timers.Get(k)
  {
    timers.Put(code, ToggleOne(timers.Get(code).GetOr(Unstarted), now))
  }

  /** One timer after a tick at `now`: a running one re-bases `startTime`, a stopped one is untouched. */
  function TickOne(t: TimerState, now: int): (r: TimerState)
    ensures r.isRunning == t.isRunning
    ensures !t.isRunning ==> r == t
    ensures t.isRunning ==> r.startTime == now && r.elapsed == Shown(t, now)
  {
    if t.isRunning then t.(elapsed := t.elapsed + (now - t.startTime), startTime := now) else t
  }

  /** The table every timer of which has ticked at `now`; the key order is kept. */
  function Ticked(timers: TimerTable, now: int): (r: TimerTable)
    requires timers.Valid()
    ensures r.Valid()
    ensures r.order == timers.order && r.entries.Keys == timers.entries.Keys
    ensures forall k :: k in timers.entries ==> r.entries[k] == TickOne(timers.entries[k], now)
  {
    JsObject(timers.order, map k | k in timers.entries :: TickOne(timers.entries[k], now))
  }

  predicate AnyRunning(timers: TimerTable) {
    exists k :: k in timers.entries && timers.entries[k].isRunning
  }

  /** A table that holds, at every position of `timers`' order, that timer ticked, is `Ticked(timers, now)`. */
  lemma TickedByPosition(timers: TimerTable, now: int, t: TimerTable)
    requires timers.Valid()
    requires t.order == timers.order && t.entries.Keys == timers.entries.Keys
    requires forall j :: 0 <= j < |timers.order| ==>
               t.entries[timers.order[j]] == TickOne(timers.entries[timers.order[j]], now)
    ensures t == Ticked(timers, now)
  {
    var spec := Ticked(timers, now);
    forall k | k in timers.entries ensures t.entries[k] == spec.entries[k] {
      var j :| 0 <= j < |timers.order| && timers.order[j] == k;
    }
    assert t.entries == spec.entries;
  }

  /**
   * The interval callback's state updater: copy the table, walk its entries
   * in order, re-base each running timer, and return the copy only if some
   * timer was running.
   */
  method TickTimers(prev: TimerTable, now: int) returns (next: TimerTable, updated: bool)
    requires prev.Valid()
    ensures next == Ticked(prev, now)
    ensures updated <==> AnyRunning(prev)
    ensures !updated ==> next == prev
  {
    var newTimers := prev;
    updated := false;
    var codes := prev.order;
    var i := 0;
    while i < |codes|
      invariant 0 <= i <= |codes|
      invariant newTimers.order == codes && newTimers.entries.Keys == prev.entries.Keys
      invariant forall j :: 0 <= j < i ==> newTimers.entries[codes[j]] == TickOne(prev.entries[codes[j]], now)
      invariant forall j :: i <= j < |codes| ==> newTimers.entries[codes[j]] == prev.entries[codes[j]]
      invariant updated ==> AnyRunning(prev)
      invariant !updated ==> forall j :: 0 <= j < i ==> !prev.entries[codes[j]].isRunning
    {
      var code := codes[i];
      var timer := prev.entries[code];
      if timer.isRunning {
        // `newTimers[code] = ...` on a key the copy already has: the key keeps its place
        newTimers := newTimers.(entries := newTimers.entries[code := timer.(elapsed := timer.elapsed + (now - timer.startTime), startTime := now)]);
        updated := true;
      }
      i := i + 1;
    }
    TickedByPosition(prev, now, newTimers);
    if !updated {
      TickedByPosition(prev, now, prev);
    }
    next := if updated then newTimers else prev;
  }

  /** A tick at `now` does not change the time any timer shows at `now`. */
  lemma TickKeepsShown(timers: TimerTable, now: int)
    requires timers.Valid()
    ensures forall k :: k in timers.entries ==>
              Shown(Ticked(timers, now).entries[k], now) == Shown(timers.entries[k], now)
  {
  }

  /** With a clock that has not gone back past any running timer's start, a tick never lowers an `elapsed`. */
  lemma TickMonotone(timers: TimerTable, now: int)
    requires timers.Valid()
    requires forall k :: k in timers.entries && timers.entries[k].isRunning ==> timers.entries[k].startTime <= now
    ensures forall k :: k in timers.entries ==> Ticked(timers, now).entries[k].elapsed >= timers.entries[k].elapsed
  {
  }

  /** The same for a toggle. */
  lemma ToggleMonotone(timers: TimerTable, code: string, now: int)
    requires timers.Valid()
    requires timers.Get(code).Some? && timers.Get(code).value.isRunning ==> timers.Get(code).value.startTime <= now
    ensures forall k :: k in timers.entries ==> Toggle(timers, code, now).entries[k].elapsed >= timers.entries[k].elapsed
  {
  }

  /** A timer toggled at each of `times` in turn. */
  function ToggleAll(t: TimerState, times: seq<int>): TimerState
    decreases |times|
  {
    if times == [] then t else ToggleAll(ToggleOne(t, times[0]), times[1..])
  }

  /** The total length of the start/stop intervals `times` describes: `times[1] - times[0]`, `times[3] - times[2]`, ... */
  function IntervalSum(times: seq<int>): int
    decreases |times|
  {
    if |times| < 2 then 0 else (times[1] - times[0]) + IntervalSum(times[2..])
  }

  /**
   * Toggling a stopped timer at the instants `times` leaves it running exactly
   * when it was toggled an odd number of times, having banked every completed
   * start/stop interval and, if running, started at the last instant.
   */
  lemma {:induction false} ToggleAllBanksIntervals(t: TimerState, times: seq<int>)
    requires !t.isRunning
    ensures ToggleAll(t, times).isRunning <==> |times| % 2 == 1
    ensures ToggleAll(t, times).elapsed == t.elapsed + IntervalSum(times)
    ensures |times| % 2 == 1 ==> ToggleAll(t, times).startTime == times[|times| - 1]
    decreases |times|
  {
    if |times| >= 2 {
      var t2 := ToggleOne(ToggleOne(t, times[0]), times[1]);
      assert ToggleAll(t, times) == ToggleAll(t2, times[2..]);
      ToggleAllBanksIntervals(t2, times[2..]);
    }
  }

  /**
   * Start at `t0`, stop 250 ms later: 250 banked. Start again at `t1`, stop
   * 100 ms later: 350 banked. Ticks in between, at any instants, change nothing.
   */
  lemma StartStopScenario(code: string, t0: int, m0: int, t1: int, m1: int)
    ensures var a := Toggle(Empty(), code, t0);
            var b := Toggle(Ticked(a, m0), code, t0 + 250);
            var c := Toggle(b, code, t1);
            var d := Toggle(Ticked(c, m1), code, t1 + 100);
            && b.Get(code) == Some(TimerState(false, m0, 250))
            && d.Get(code) == Some(TimerState(false, m1, 350))
  {
  }
}
