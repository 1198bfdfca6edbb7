/** The launcher supervisor's restart limit: at most five starts a minute, kept with a queue
    of recent start times. Instants are milliseconds of a monotone clock. */
module Limiter {
  import opened Domain

  const MAX_STARTS := 5
  const WINDOW_MS := 60_000

  /** One turn of the supervision loop: when it checks the limit and, if it goes on to launch,
      when it notes the start. */
  datatype Turn = Turn(checkAt: int, startAt: Option<int>)

  function PruneBefore(queue: seq<int>, cutoff: int): seq<int> {
    if |queue| > 0 && queue[0] < cutoff then PruneBefore(queue[1..], cutoff) else queue
  }

  /** The queue, and every start ever recorded. */
  datatype Supervision = Supervision(queue: seq<int>, history: seq<int>)

  function Step(s: Supervision, t: Turn): Supervision {
    var queue := PruneBefore(s.queue, t.checkAt - WINDOW_MS);
    if |queue| >= MAX_STARTS || t.startAt.None? then s.(queue := queue)
    else Supervision(queue + [t.startAt.value], s.history + [t.startAt.value])
  }

  function Supervise(turns: seq<Turn>): Supervision {
    if |turns| == 0 then Supervision([], []) else Step(Supervise(turns[..|turns| - 1]), turns[|turns| - 1])
  }

  /** The last instant that a turn read from the clock. */
  function LastReading(t: Turn): int {
    if t.startAt.Some? then t.startAt.value else t.checkAt
  }

  predicate Monotone(turns: seq<Turn>) {
    && (forall i :: 0 <= i < |turns| ==> turns[i].checkAt <= LastReading(turns[i]))
    && (forall i :: 0 <= i < |turns| - 1 ==> LastReading(turns[i]) <= turns[i + 1].checkAt)
  }

  // ---- The limiter as it is executed -------------------------------------------

  class LauncherSupervisor {
    var recentStarts: seq<int>

    constructor ()
      ensures recentStarts == []
    {
      recentStarts := [];
    }

    method RateLimited(now: int) returns (limited: bool)
      modifies this
      ensures recentStarts == PruneBefore(old(recentStarts), now - WINDOW_MS)
      ensures limited <==> |recentStarts| >= MAX_STARTS
    {
      var cutoff := now - WINDOW_MS;
      while |recentStarts| > 0 && recentStarts[0] < cutoff
        invariant PruneBefore(recentStarts, cutoff) == PruneBefore(old(recentStarts), cutoff)
        decreases |recentStarts|
      {
        recentStarts := recentStarts[1..];
      }
      limited := |recentStarts| >= MAX_STARTS;
    }

    method NoteStart(now: int)
      modifies this
      ensures recentStarts == old(recentStarts) + [now]
    {
      recentStarts := recentStarts + [now];
    }

    /** The supervision loop over the given turns; `starts` are the launcher's start times. */
    method SuperviseAll(turns: seq<Turn>) returns (starts: seq<int>)
      requires recentStarts == []
      modifies this
      ensures Supervision(recentStarts, starts) == Supervise(turns)
    {
      starts := [];
      for i := 0 to |turns|
        invariant Supervision(recentStarts, starts) == Supervise(turns[..i])
      {
        assert turns[..i + 1][..i] == turns[..i];
        var limited := RateLimited(turns[i].checkAt);
        if limited { continue; }
        if turns[i].startAt.None? { continue; }
        NoteStart(turns[i].startAt.value);
        starts := starts + [turns[i].startAt.value];
      }
      assert turns[..|turns|] == turns;
    }
  }

  // ---- The limit ---------------------------------------------------------------

  predicate Ascending(xs: seq<int>) {
    forall i, j :: 0 <= i < j < |xs| ==> xs[i] <= xs[j]
  }

  /** Any six successive starts span more than a minute. */
  predicate Spread(xs: seq<int>) {
    forall i, j :: 0 <= i < j < |xs| && j - i >= MAX_STARTS ==> xs[j] - xs[i] > WINDOW_MS
  }

  /** The queue is a suffix of the history, all that it lacks is older than the cutoff, and any
      six successive starts span more than a minute. */
  ghost predicate Limited(s: Supervision, now: int) {
    var dropped := |s.history| - |s.queue|;
    && 0 <= dropped && s.queue == s.history[dropped..]
    && Ascending(s.history)
    && (forall i :: 0 <= i < |s.history| ==> s.history[i] <= now)
    && (forall i :: 0 <= i < dropped ==> s.history[i] < now - WINDOW_MS)
    && Spread(s.history)
  }

  lemma {:induction false} PruneDropsOld(queue: seq<int>, cutoff: int)
    ensures var kept := PruneBefore(queue, cutoff);
            var n := |queue| - |kept|;
            && 0 <= n && kept == queue[n..]
            && (forall i :: 0 <= i < n ==> queue[i] < cutoff)
            && (|kept| > 0 ==> kept[0] >= cutoff)
  {
    if |queue| > 0 && queue[0] < cutoff {
      PruneDropsOld(queue[1..], cutoff);
    }
  }

  lemma {:induction false} CheckKeepsLimit(s: Supervision, before: int, now: int)
    requires Limited(s, before) && before <= now
    ensures Limited(s.(queue := PruneBefore(s.queue, now - WINDOW_MS)), now)
  {
    PruneDropsOld(s.queue, now - WINDOW_MS);
  }

  lemma {:induction false} StartKeepsLimit(s: Supervision, checkAt: int, startAt: int)
    requires Limited(s, checkAt) && checkAt <= startAt && |s.queue| < MAX_STARTS
    ensures Limited(Supervision(s.queue + [startAt], s.history + [startAt]), startAt)
  {
    hide Ascending, Spread;
    var h := s.history + [startAt];
    var dropped := |s.history| - |s.queue|;
    assert h[dropped..] == s.queue + [startAt];
    AscendingAppend(s.history, startAt);
    SpreadAppend(s.history, startAt);
  }

  lemma {:induction false} AscendingAppend(xs: seq<int>, x: int)
    requires Ascending(xs) && forall i :: 0 <= i < |xs| ==> xs[i] <= x
    ensures Ascending(xs + [x])
  {
  }

  lemma {:induction false} SpreadAppend(xs: seq<int>, x: int)
    requires Spread(xs) && forall i :: 0 <= i <= |xs| - MAX_STARTS ==> xs[i] < x - WINDOW_MS
    ensures Spread(xs + [x])
  {
  }

  lemma {:induction false} StaysLimited(s: Supervision, before: int, now: int)
    requires Limited(s, before) && before <= now
    ensures Limited(s, now)
  {
  }

  lemma {:induction false} NothingStarted(now: int)
    ensures Limited(Supervision([], []), now)
  {
    var s := Supervision([], []);
    assert |s.history| == 0 && |s.queue| == 0;
    assert s.history[0..] == s.queue;
  }

  lemma {:induction false} TurnKeepsLimit(s: Supervision, before: int, t: Turn)
    requires Limited(s, before) && before <= t.checkAt <= LastReading(t)
    ensures Limited(Step(s, t), LastReading(t))
  {
    hide Limited, PruneBefore;
    CheckKeepsLimit(s, before, t.checkAt);
    var checked := s.(queue := PruneBefore(s.queue, t.checkAt - WINDOW_MS));
    if |checked.queue| < MAX_STARTS && t.startAt.Some? {
      StartKeepsLimit(checked, t.checkAt, t.startAt.value);
    } else {
      StaysLimited(checked, t.checkAt, LastReading(t));
    }
  }

  lemma {:induction false} LimitHolds(turns: seq<Turn>)
    requires Monotone(turns) && |turns| > 0
    ensures Limited(Supervise(turns), LastReading(turns[|turns| - 1]))
  {
    hide Limited, Step;
    var n := |turns| - 1;
    var t := turns[n];
    if n == 0 {
      assert turns[..0] == [];
      NothingStarted(t.checkAt);
      TurnKeepsLimit(Supervision([], []), t.checkAt, t);
    } else {
      assert Monotone(turns[..n]);
      LimitHolds(turns[..n]);
      assert LastReading(turns[n - 1]) <= turns[n - 1 + 1].checkAt;
      TurnKeepsLimit(Supervise(turns[..n]), LastReading(turns[n - 1]), t);
    }
  }

  function CountBetween(xs: seq<int>, from: int, to: int): nat {
    if |xs| == 0 then 0
    else CountBetween(xs[..|xs| - 1], from, to) + if from <= xs[|xs| - 1] <= to then 1 else 0
  }

  /** Starts before the window do not count. */
  lemma {:induction false} CountSkips(xs: seq<int>, k: nat, from: int, to: int)
    requires k <= |xs| && forall i :: 0 <= i < k ==> xs[i] < from
    ensures CountBetween(xs, from, to) <= |xs| - k
  {
    if |xs| > 0 {
      CountSkips(xs[..|xs| - 1], if k < |xs| then k else |xs| - 1, from, to);
    }
  }

  lemma {:induction false} CountIsBounded(xs: seq<int>, from: int)
    requires Ascending(xs)
    requires Spread(xs)
    ensures CountBetween(xs, from, from + WINDOW_MS) <= MAX_STARTS
  {
    if |xs| <= MAX_STARTS {
      CountSkips(xs, 0, from, from + WINDOW_MS);
    } else {
      var n := |xs| - 1;
      if from <= xs[n] <= from + WINDOW_MS {
        var k := n - MAX_STARTS;
        assert xs[n] - xs[k] > WINDOW_MS;
        CountSkips(xs, k + 1, from, from + WINDOW_MS);
      } else {
        CountIsBounded(xs[..n], from);
      }
    }
  }

  /** In every supervision run, every closed 60-second window holds at most five starts,
      although the queue forgets all but the recent ones. */
  lemma {:induction false} AtMostFiveStartsAMinute(turns: seq<Turn>, from: int)
    requires Monotone(turns)
    ensures CountBetween(Supervise(turns).history, from, from + 60_000) <= 5
  {
    if |turns| > 0 {
      LimitHolds(turns);
      CountIsBounded(Supervise(turns).history, from);
    }
  }

  // ---- Who is refused ----------------------------------------------------------

  lemma {:induction false} CountSuffix(xs: seq<int>, k: nat, from: int, to: int)
    requires k <= |xs| && forall i :: 0 <= i < k ==> xs[i] < from
    requires forall i :: k <= i < |xs| ==> from <= xs[i] <= to
    ensures CountBetween(xs, from, to) == |xs| - k
  {
    if |xs| > 0 {
      CountSuffix(xs[..|xs| - 1], if k < |xs| then k else |xs| - 1, from, to);
    }
  }

  /** What is left in the queue at a check is what started within the minute before it. */
  lemma {:induction false} QueueCounts(s: Supervision, before: int, now: int)
    requires Limited(s, before) && before <= now
    ensures |PruneBefore(s.queue, now - WINDOW_MS)| == CountBetween(s.history, now - 60_000, now)
  {
    hide PruneBefore, Limited, CountBetween;
    CheckKeepsLimit(s, before, now);
    PruneDropsOld(s.queue, now - WINDOW_MS);
    QueueIsRecent(s.(queue := PruneBefore(s.queue, now - WINDOW_MS)), now);
  }

  lemma {:induction false} QueueIsRecent(s: Supervision, now: int)
    requires Limited(s, now) && (|s.queue| > 0 ==> s.queue[0] >= now - 60_000)
    ensures |s.queue| == CountBetween(s.history, now - 60_000, now)
  {
    hide Spread, CountBetween;
    var k := |s.history| - |s.queue|;
    forall i | k <= i < |s.history|
      ensures now - 60_000 <= s.history[i] <= now
    {
      assert s.queue[0] == s.history[k];
    }
    CountSuffix(s.history, k, now - 60_000, now);
  }

  /** After every run, a launch goes ahead if and only if fewer than five launches started within the
      minute before the check, and then exactly that start is noted. */
  lemma {:induction false} LaunchesExactly(turns: seq<Turn>, t: Turn)
    requires Monotone(turns + [t]) && t.startAt.Some?
    ensures var history := Supervise(turns).history;
            Supervise(turns + [t]).history
            == if CountBetween(history, t.checkAt - 60_000, t.checkAt) < 5 then history + [t.startAt.value] else history
  {
    hide Limited;
    var all := turns + [t];
    assert all[..|turns|] == turns;
    if |turns| == 0 {
      NothingStarted(t.checkAt);
      QueueCounts(Supervise(turns), t.checkAt, t.checkAt);
    } else {
      var n := |turns| - 1;
      assert forall i :: 0 <= i < |turns| ==> all[i] == turns[i];
      assert LastReading(all[n]) <= all[n + 1].checkAt;
      LimitHolds(turns);
      QueueCounts(Supervise(turns), LastReading(turns[n]), t.checkAt);
    }
  }
}
