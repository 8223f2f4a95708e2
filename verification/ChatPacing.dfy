/** Two brakes on chat: a second between messages, and ten messages in thirty
    seconds. Messages are stamped in whole seconds; the clock is finer. */
module ChatPacing {
  const RATE_WINDOW_S := 30
  const RATE_MAX_IN_WINDOW := 10
  const MIN_INTERVAL_S := 1

  function Ceiling(x: real): int {
    -((-x).Floor)
  }

  /** The last ten stamps, newest first, of a log in posting order. */
  function RecentSendTimes(log: seq<int>): (times: seq<int>)
    ensures |times| == (if |log| < RATE_MAX_IN_WINDOW then |log| else RATE_MAX_IN_WINDOW)
    ensures forall i :: 0 <= i < |times| ==> times[i] == log[|log| - 1 - i]
  {
    seq(if |log| < RATE_MAX_IN_WINDOW then |log| else RATE_MAX_IN_WINDOW,
        i requires 0 <= i < |log| => log[|log| - 1 - i])
  }

  predicate InWindow(t: int, now: real) {
    now - t as real < RATE_WINDOW_S as real
  }

  function WindowOf(times: seq<int>, now: real): (kept: seq<int>)
    ensures |kept| <= |times|
    ensures forall t :: t in kept ==> t in times && InWindow(t, now)
  {
    if times == [] then []
    else (if InWindow(times[0], now) then [times[0]] else []) + WindowOf(times[1..], now)
  }

  function Oldest(times: seq<int>): (m: int)
    requires times != []
    ensures m in times && forall t :: t in times ==> m <= t
  {
    if |times| == 1 then times[0]
    else
      var rest := Oldest(times[1..]);
      assert forall t :: t in times ==> t == times[0] || t in times[1..];
      if times[0] < rest then times[0] else rest
  }

  /** What is left of the second since the last message. */
  function GapWait(times: seq<int>, now: real): real {
    if times != [] && now - times[0] as real < MIN_INTERVAL_S as real
    then MIN_INTERVAL_S as real - (now - times[0] as real) else 0.0
  }

  /** What is left until the oldest of ten leaves the window. */
  function BurstWait(times: seq<int>, now: real): real {
    var kept := WindowOf(times, now);
    if |kept| >= RATE_MAX_IN_WINDOW then RATE_WINDOW_S as real - (now - Oldest(kept) as real) else 0.0
  }

  function Wait(log: seq<int>, now: real): (wait: real)
    ensures wait >= 0.0
  {
    var times := RecentSendTimes(log);
    var gap, burst := GapWait(times, now), BurstWait(times, now);
    if gap < burst then burst else gap
  }

  function Max(a: nat, b: int): nat {
    if b < a then a else b
  }

  /** In whole seconds, and never zero while a brake is engaged. */
  function Seconds(wait: real): (seconds: nat)
    ensures wait > 0.0 ==> seconds as real >= wait && (seconds - 1) as real < wait
  {
    if wait > 0.0 then Max(1, Ceiling(wait)) else 0
  }

  /** The larger of the two brakes. */
  method RetryAfter(log: seq<int>, now: real) returns (seconds: nat)
    ensures seconds == Seconds(Wait(log, now))
  {
    var times := RecentSendTimes(log);
    if times == [] {
      return 0;
    }
    var wait := 0.0;
    var sinceLast := now - times[0] as real;
    if sinceLast < MIN_INTERVAL_S as real {
      wait := MIN_INTERVAL_S as real - sinceLast;
    }
    var inWindow := WindowOf(times, now);
    if |inWindow| >= RATE_MAX_IN_WINDOW {
      var left := RATE_WINDOW_S as real - (now - Oldest(inWindow) as real);
      wait := if wait < left then left else wait;
    }
    return Seconds(wait);
  }

  // ----------------------------------------------------------- the safety side

  /** No two messages in one second, no eleven in thirty. */
  ghost predicate Paced(log: seq<int>) {
    && (forall i :: 0 < i < |log| ==> log[i] >= log[i - 1] + 1)
    && (forall i :: 10 <= i < |log| ==> log[i] >= log[i - 10] + 30)
  }

  /** When every recent message is in the window, all ten are counted. */
  lemma {:induction false} AllInWindow(times: seq<int>, now: real)
    requires forall i :: 0 <= i < |times| ==> InWindow(times[i], now)
    ensures |WindowOf(times, now)| == |times|
  {
    if times != [] {
      AllInWindow(times[1..], now);
    }
  }

  lemma {:induction false} Increasing(log: seq<int>, i: nat, j: nat)
    requires Paced(log) && i <= j < |log|
    ensures log[i] <= log[j]
    decreases j - i
  {
    if i < j {
      Increasing(log, i, j - 1);
    }
  }

  /** A tenth message in the window engages the brake. */
  lemma TenEngage(log: seq<int>, now: real)
    requires Paced(log) && |log| >= RATE_MAX_IN_WINDOW && InWindow(log[|log| - RATE_MAX_IN_WINDOW], now)
    ensures Wait(log, now) > 0.0
  {
    var times := RecentSendTimes(log);
    forall i | 0 <= i < |times| ensures InWindow(times[i], now) {
      Increasing(log, |log| - RATE_MAX_IN_WINDOW, |log| - 1 - i);
    }
    AllInWindow(times, now);
    assert InWindow(Oldest(WindowOf(times, now)), now);
  }

  /** With no brake engaged the tenth message back is out of the window. */
  lemma TenthIsOut(log: seq<int>, now: real)
    requires Paced(log) && |log| >= RATE_MAX_IN_WINDOW && Wait(log, now) == 0.0
    ensures now - log[|log| - RATE_MAX_IN_WINDOW] as real >= RATE_WINDOW_S as real
  {
    if InWindow(log[|log| - RATE_MAX_IN_WINDOW], now) {
      TenEngage(log, now);
    }
  }

  /** A message let through, and stamped then or later, keeps the pace. */
  lemma PostKeepsPace(log: seq<int>, checked: real, posted: real)
    requires Paced(log) && Wait(log, checked) == 0.0 && checked <= posted
    ensures Paced(log + [posted.Floor])
  {
    var more, n := log + [posted.Floor], |log|;
    if n > 0 {
      assert RecentSendTimes(log)[0] == log[n - 1];
    }
    if n >= RATE_MAX_IN_WINDOW {
      TenthIsOut(log, checked);
    }
    forall i | 0 < i < |more| ensures more[i] >= more[i - 1] + 1 {
    }
    forall i | 10 <= i < |more| ensures more[i] >= more[i - 10] + 30 {
    }
  }

  /** The sends within thirty seconds of some moment. */
  function SendsIn(log: seq<int>, from: int): nat {
    if log == [] then 0
    else SendsIn(log[..|log| - 1], from) + if from <= log[|log| - 1] < from + 30 then 1 else 0
  }

  lemma PacedPrefix(log: seq<int>, n: nat)
    requires Paced(log) && n <= |log|
    ensures Paced(log[..n])
  {
  }

  /** Sends before the window do not count in it. */
  lemma {:induction false} NoneBefore(log: seq<int>, from: int)
    requires forall i :: 0 <= i < |log| ==> log[i] < from
    ensures SendsIn(log, from) == 0
  {
    if log != [] {
      NoneBefore(log[..|log| - 1], from);
    }
  }

  lemma {:induction false} CountOfLast(log: seq<int>, from: int, n: nat)
    requires n <= |log| && forall i :: 0 <= i < |log| - n ==> log[i] < from
    ensures SendsIn(log, from) <= n
    decreases n
  {
    if n == 0 {
      NoneBefore(log, from);
    } else {
      CountOfLast(log[..|log| - 1], from, n - 1);
    }
  }

  /** No thirty seconds anywhere hold more than ten sends. */
  lemma {:induction false} NeverMoreThanTen(log: seq<int>, from: int)
    requires Paced(log)
    ensures SendsIn(log, from) <= 10
    decreases |log|
  {
    var n := |log|;
    if n <= RATE_MAX_IN_WINDOW {
      CountOfLast(log, from, n);
    } else if log[n - 1] >= from + RATE_WINDOW_S {
      PacedPrefix(log, n - 1);
      NeverMoreThanTen(log[..n - 1], from);
    } else {
      forall i | 0 <= i < n - RATE_MAX_IN_WINDOW ensures log[i] < from {
        Increasing(log, i, n - 1 - RATE_MAX_IN_WINDOW);
      }
      CountOfLast(log, from, RATE_MAX_IN_WINDOW);
    }
  }

  // ----------------------------------------------------------- the waiting side

  /** The window only empties as time passes. */
  lemma {:induction false} WindowShrinks(times: seq<int>, now: real, later: real)
    requires now <= later
    ensures |WindowOf(times, later)| <= |WindowOf(times, now)|
    ensures (exists t :: t in WindowOf(times, now) && !InWindow(t, later)) ==>
              |WindowOf(times, later)| < |WindowOf(times, now)|
  {
    if times != [] {
      WindowShrinks(times[1..], now, later);
    }
  }

  /** While the oldest of the window is still in it, nobody has left. */
  lemma {:induction false} WindowStays(times: seq<int>, now: real, later: real)
    requires now <= later && forall t :: t in WindowOf(times, now) ==> InWindow(t, later)
    ensures WindowOf(times, later) == WindowOf(times, now)
  {
    if times != [] {
      assert forall t :: t in WindowOf(times[1..], now) ==> t in WindowOf(times, now);
      WindowStays(times[1..], now, later);
      assert InWindow(times[0], now) ==> times[0] in WindowOf(times, now);
    }
  }

  /** Waiting takes off what was waited, and all of it in the end. */
  lemma WaitRunsDown(log: seq<int>, now: real, waited: real)
    requires waited >= 0.0
    ensures Wait(log, now + waited) == if waited < Wait(log, now) then Wait(log, now) - waited else 0.0
  {
    var times := RecentSendTimes(log);
    GapRunsDown(times, now, waited);
    BurstRunsDown(times, now, waited);
  }

  lemma GapRunsDown(times: seq<int>, now: real, waited: real)
    requires waited >= 0.0
    ensures GapWait(times, now + waited) == if waited < GapWait(times, now) then GapWait(times, now) - waited else 0.0
  {
  }

  lemma BurstRunsDown(times: seq<int>, now: real, waited: real)
    requires waited >= 0.0 && |times| <= RATE_MAX_IN_WINDOW
    ensures BurstWait(times, now + waited) ==
            if waited < BurstWait(times, now) then BurstWait(times, now) - waited else 0.0
  {
    var kept := WindowOf(times, now);
    WindowShrinks(times, now, now + waited);
    if |kept| >= RATE_MAX_IN_WINDOW {
      var oldest := Oldest(kept);
      if waited < BurstWait(times, now) {
        WindowStays(times, now, now + waited);
      } else {
        assert !InWindow(oldest, now + waited);
      }
    }
  }

  /** A second after the last message and thirty after the tenth last. */
  predicate LetsThrough(log: seq<int>, now: real) {
    && (|log| > 0 ==> now - log[|log| - 1] as real >= 1.0)
    && (|log| >= 10 ==> now - log[|log| - 10] as real >= 30.0)
  }

  lemma {:induction false} SomeAreOut(times: seq<int>, now: real, i: nat)
    requires i < |times| && !InWindow(times[i], now)
    ensures |WindowOf(times, now)| < |times|
  {
    if i > 0 {
      SomeAreOut(times[1..], now, i - 1);
    }
  }

  /** No brake is engaged exactly then. */
  lemma LetThroughExactly(log: seq<int>, now: real)
    requires Paced(log)
    ensures Seconds(Wait(log, now)) == 0 <==> LetsThrough(log, now)
  {
    var times, n := RecentSendTimes(log), |log|;
    assert n > 0 ==> times[0] == log[n - 1];
    if n >= RATE_MAX_IN_WINDOW {
      assert times[RATE_MAX_IN_WINDOW - 1] == log[n - RATE_MAX_IN_WINDOW];
      if InWindow(log[n - RATE_MAX_IN_WINDOW], now) {
        TenEngage(log, now);
      } else {
        SomeAreOut(times, now, RATE_MAX_IN_WINDOW - 1);
      }
    }
  }

  /** The answer is exact: with no new message, waiting that many seconds is enough,
      and a second less is not. */
  lemma WaitIsExact(log: seq<int>, now: real)
    ensures var seconds := Seconds(Wait(log, now));
            && Seconds(Wait(log, now + seconds as real)) == 0
            && (seconds > 0 ==> Seconds(Wait(log, now + (seconds - 1) as real)) > 0)
  {
    var seconds := Seconds(Wait(log, now));
    WaitRunsDown(log, now, seconds as real);
    if seconds > 0 {
      WaitRunsDown(log, now, (seconds - 1) as real);
    }
  }

  /** So the answer is the least number of whole seconds after which a message is let
      through. */
  lemma LetThroughThen(log: seq<int>, now: real)
    requires Paced(log)
    ensures var wait := Seconds(Wait(log, now));
            && (wait == 0 <==> LetsThrough(log, now)) && (wait == 0 ==> Wait(log, now) == 0.0)
            && LetsThrough(log, now + wait as real)
            && (wait > 0 ==> !LetsThrough(log, now + (wait - 1) as real))
  {
    WaitIsExact(log, now);
    var wait := Seconds(Wait(log, now));
    hide Paced, Wait, LetsThrough;
    LetThroughExactly(log, now);
    LetThroughExactly(log, now + wait as real);
    if wait > 0 {
      LetThroughExactly(log, now + (wait - 1) as real);
    }
  }

  // ---------------------------------------------------------------- the channel

  /** One account's messages. */
  class SendLog {
    var stamps: seq<int>

    ghost predicate Valid()
      reads this
    {
      Paced(stamps)
    }

    constructor ()
      ensures Valid() && stamps == []
    {
      stamps := [];
    }

    /** Checks the brakes and posts in one write; the row is stamped a moment after
        the check. */
    method GuardedSend(checked: real, posted: real) returns (wait: nat)
      requires Valid() && checked <= posted
      modifies this
      ensures Valid()
      ensures wait == Seconds(Wait(old(stamps), checked))
      ensures wait == 0 <==> LetsThrough(old(stamps), checked)
      ensures LetsThrough(old(stamps), checked + wait as real)
      ensures wait > 0 ==> !LetsThrough(old(stamps), checked + (wait - 1) as real)
      ensures stamps == if wait == 0 then old(stamps) + [posted.Floor] else old(stamps)
    {
      hide Paced, Wait, Seconds, LetsThrough;
      wait := RetryAfter(stamps, checked);
      LetThroughThen(stamps, checked);
      if wait == 0 {
        PostKeepsPace(stamps, checked, posted);
        stamps := stamps + [posted.Floor];
      }
    }
  }
}
