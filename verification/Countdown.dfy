/** The countdown of one session between two resets: ticks of a monotone clock at most two
    seconds apart, no pause. */
module Countdown {
  import opened Domain
  import opened LocalSessions

  const MAX_GAP_MS := 2000

  /** A session is running, unpaused, until `expires`. */
  predicate Watching(e: Engine, expires: int) {
    && !e.paused && !e.state.NoSession? && LastOpen(e.rows) && HasOpen(e.rows)
    && e.rows[|e.rows| - 1].expires == expires
  }

  /** The session has run out. */
  predicate RunOut(e: Engine) {
    e.state.NoSession? && |e.rows| > 0 && e.rows[|e.rows| - 1].status.Lapsed?
  }

  /** The expiry that a start, an extension or a server-set expiry leaves behind. */
  function NewExpiry(e: Engine, op: Op): int
    requires HasOpen(e.rows) || op.StartOp?
  {
    match op
    case StartOp(planned, _, _, expires, now) => if expires.Some? then expires.value else now + planned * MINUTE_MS
    case ExtendOp(minutes, _) => e.rows[|e.rows| - 1].expires + minutes * MINUTE_MS
    case SetExpiresOp(instant, _) => instant
    case _ => e.rows[|e.rows| - 1].expires
  }

  /** A start, an extension and a changed expiry are resets: the countdown begins anew with no
      warning fired. A start is refused exactly while a session runs, an extension exactly while
      none does. */
  lemma {:induction false} ResetStartsCountdown(e: Engine, op: Op, marks: seq<int>)
    requires LastOpen(e.rows) && Agrees(e)
    requires op.StartOp? || op.ExtendOp? || op.SetExpiresOp?
    ensures var x := Apply(e, op, marks);
            && (x.thrown <==> (op.StartOp? <==> HasOpen(e.rows)))
            && (x.thrown ==> x.engine == e && x.emitted == [])
            && (!x.thrown && x.engine != e && !e.paused ==> Watching(x.engine, NewExpiry(e, op)) && x.engine.fired == {})
            && (!x.thrown && x.engine == e ==> op.SetExpiresOp? || x.engine.fired == {})
  {
    LoadActiveIsLast(e.rows);
  }

  /** A reboot picks the countdown up exactly if an open session has not run out meanwhile, and
      otherwise lets it lapse and tells the server: pause and fired warnings do not survive. */
  lemma {:induction false} BootStartsCountdown(e: Engine, now: int)
    requires LastOpen(e.rows)
    ensures var boot, n := Recover(Rebooted(e), now), |e.rows|;
            var x := boot.engine;
            var expires := if HasOpen(e.rows) then e.rows[n - 1].expires else 0;
            && x.fired == {} && !x.paused && boot.raised == [] && !boot.thrown
            && (HasOpen(e.rows) && now < expires ==>
                  Watching(x, expires) && x.state.Running? && x.activeRef == Some(n - 1) && x.rows == e.rows)
            && (HasOpen(e.rows) && now >= expires ==>
                  RunOut(x) && x.activeRef.None? && LastBecomes(e.rows, x.rows, e.rows[n - 1].(status := Lapsed)))
            && (!HasOpen(e.rows) ==> x.state.NoSession? && x.activeRef.None? && x.rows == e.rows)
            && boot.emitted == if HasOpen(e.rows) && now >= expires
                               then [Emission(SessionEnded, Payload(Some(n - 1), Missing, Missing))] else []
  {
    LoadActiveIsLast(e.rows);
  }

  datatype Ticked = Ticked(engine: Engine, raised: seq<Warning>)

  function TickAll(e: Engine, ts: seq<int>, marks: seq<int>): Ticked {
    if |ts| == 0 then Ticked(e, [])
    else
      var before := TickAll(e, ts[..|ts| - 1], marks);
      var x := Tick(before.engine, marks, ts[|ts| - 1]);
      Ticked(x.engine, before.raised + x.raised)
  }

  /** The last instant at which the engine looked at the clock. */
  function Latest(t0: int, ts: seq<int>): int {
    if |ts| == 0 then t0 else ts[|ts| - 1]
  }

  predicate Paced(t0: int, ts: seq<int>) {
    |ts| > 0 ==>
      (Paced(t0, ts[..|ts| - 1]) && 0 <= ts[|ts| - 1] - Latest(t0, ts[..|ts| - 1]) <= MAX_GAP_MS)
  }

  function Fires(raised: seq<Warning>, m: int): nat {
    if |raised| == 0 then 0 else Fires(raised[..|raised| - 1], m) + if raised[|raised| - 1].mark == m then 1 else 0
  }

  lemma {:induction false} FiresConcat(xs: seq<Warning>, ys: seq<Warning>, m: int)
    ensures Fires(xs + ys, m) == Fires(xs, m) + Fires(ys, m)
    decreases |ys|
  {
    if |ys| == 0 {
      assert xs + ys == xs;
    } else {
      FiresConcat(xs, ys[..|ys| - 1], m);
      assert (xs + ys)[..|xs + ys| - 1] == xs + ys[..|ys| - 1];
    }
  }

  lemma {:induction false} MarkRaised(marks: seq<int>, fired: set<int>, k: nat, remaining: int, m: int)
    ensures var r := RaiseMarks(marks, fired, k, remaining);
            var now := m in marks && Crosses(m, remaining);
            && (m in r.fired <==> m in fired || now)
            && Fires(r.raised, m) == if now && m !in fired then 1 else 0
  {
    if |marks| > 0 {
      var front := marks[..|marks| - 1];
      MarkRaised(front, fired, k, remaining, m);
      var r := RaiseMarks(front, fired, k, remaining);
      var w := Warning(marks[|marks| - 1], k, remaining);
      FiresConcat(r.raised, [w], m);
      assert [w][..0] == [];
      assert Fires([w], m) == if w.mark == m then 1 else 0;
      assert marks == front + [marks[|marks| - 1]];
    }
  }

  lemma {:induction false} SecondsFall(expires: int, prev: int, now: int)
    requires 0 <= now - prev <= MAX_GAP_MS
    ensures SecondsLeft(expires, prev) - 2 <= SecondsLeft(expires, now) <= SecondsLeft(expires, prev)
  {
  }

  /** One tick of a running session. */
  lemma {:induction false} TickWatches(e: Engine, expires: int, marks: seq<int>, now: int)
    requires Watching(e, expires)
    ensures var x := Tick(e, marks, now).engine;
            && |x.rows| == |e.rows|
            && (SecondsLeft(expires, now) > 0 ==> Watching(x, expires))
            && (SecondsLeft(expires, now) == 0 ==> RunOut(x))
    ensures Tick(e, marks, now).raised == RaiseMarks(marks, e.fired, |e.rows| - 1, SecondsLeft(expires, now)).raised
    ensures Tick(e, marks, now).engine.fired == RaiseMarks(marks, e.fired, |e.rows| - 1, SecondsLeft(expires, now)).fired
  {
    hide RaiseMarks, SecondsLeft;
    LoadActiveIsLast(e.rows);
  }

  lemma {:induction false} PacedIsMonotone(t0: int, ts: seq<int>)
    requires Paced(t0, ts)
    ensures t0 <= Latest(t0, ts)
  {
    if |ts| > 0 {
      PacedIsMonotone(t0, ts[..|ts| - 1]);
    }
  }

  /** The session runs exactly until the first tick with less than a second left. */
  lemma {:induction false} RunsUntilLastSecond(e: Engine, t0: int, ts: seq<int>, marks: seq<int>, expires: int)
    requires Watching(e, expires) && Paced(t0, ts) && SecondsLeft(expires, t0) > 0
    ensures var x := TickAll(e, ts, marks).engine;
            && (SecondsLeft(expires, Latest(t0, ts)) > 0 ==> Watching(x, expires))
            && (SecondsLeft(expires, Latest(t0, ts)) == 0 ==> RunOut(x))
  {
    if |ts| > 0 {
      var front, now := ts[..|ts| - 1], ts[|ts| - 1];
      RunsUntilLastSecond(e, t0, front, marks, expires);
      SecondsFall(expires, Latest(t0, front), now);
      var before := TickAll(e, front, marks).engine;
      if Watching(before, expires) {
        TickWatches(before, expires, marks, now);
      }
    }
  }

  /** From a reset on, a session that still runs at a tick is expiring exactly from the tick on that
      finds at most sixty seconds left. */
  lemma {:induction false} ExpiringInLastMinute(e: Engine, t0: int, ts: seq<int>, marks: seq<int>, expires: int)
    requires Watching(e, expires) && e.state.Running? && Agrees(e) && Paced(t0, ts) && |ts| > 0
    requires SecondsLeft(expires, t0) > 0 && SecondsLeft(expires, Latest(t0, ts)) > 0
    ensures var x := TickAll(e, ts, marks).engine;
            && Agrees(x) && (x.state.Expiring? <==> SecondsLeft(expires, Latest(t0, ts)) <= 60)
            && (x.state.Running? <==> SecondsLeft(expires, Latest(t0, ts)) > 60)
  {
    hide Tick;
    var front, now := ts[..|ts| - 1], ts[|ts| - 1];
    var before := TickAll(e, front, marks).engine;
    RunsUntilLastSecond(e, t0, front, marks, expires);
    RunsUntilLastSecond(e, t0, ts, marks, expires);
    SecondsFall(expires, Latest(t0, front), now);
    if |front| > 0 {
      ExpiringInLastMinute(e, t0, front, marks, expires);
    }
    ApplyIsFaithful(before, TickOp(now), marks);
    TickOutcome(before, marks, now);
  }

  /** A warning mark below the time left at the reset has fired exactly once as soon as the
      time left has fallen to it, and not before: no mark is skipped between two ticks. */
  lemma {:induction false} EachMarkFiresOnce(e: Engine, t0: int, ts: seq<int>, marks: seq<int>, expires: int, m: int)
    requires Watching(e, expires) && e.fired == {} && Paced(t0, ts)
    requires m in marks && 0 <= m < SecondsLeft(expires, t0)
    ensures var x := TickAll(e, ts, marks);
            var reached := SecondsLeft(expires, Latest(t0, ts)) <= m;
            && (m in x.engine.fired <==> reached)
            && Fires(x.raised, m) == if reached then 1 else 0
  {
    hide RaiseMarks, SecondsLeft, Tick;
    if |ts| > 0 {
      hide Fires, LastOpen;
      var front, now := ts[..|ts| - 1], ts[|ts| - 1];
      EachMarkFiresOnce(e, t0, front, marks, expires, m);
      RunsUntilLastSecond(e, t0, front, marks, expires);
      SecondsFall(expires, Latest(t0, front), now);
      var before := TickAll(e, front, marks);
      FiresConcat(before.raised, Tick(before.engine, marks, now).raised, m);
      if SecondsLeft(expires, Latest(t0, front)) > 0 {
        TickWatches(before.engine, expires, marks, now);
        SecondsNotNegative(expires, now);
        MarkRaised(marks, before.engine.fired, |before.engine.rows| - 1, SecondsLeft(expires, now), m);
      } else {
        SecondsNotNegative(expires, Latest(t0, front));
        TickAfterEnd(before.engine, marks, now);
      }
    }
  }

  lemma {:induction false} SecondsNotNegative(expires: int, now: int)
    ensures SecondsLeft(expires, now) >= 0
  {
  }

  lemma {:induction false} TickAfterEnd(e: Engine, marks: seq<int>, now: int)
    requires e.state.NoSession?
    ensures Tick(e, marks, now) == Quiet(e)
  {
  }

  /** The tick that ends the session comes less than a second before the expiry time and at
      most one tick gap after the last full second began. */
  lemma {:induction false} ExpiryIsPrompt(e: Engine, t0: int, ts: seq<int>, marks: seq<int>, expires: int)
    requires Watching(e, expires) && Paced(t0, ts) && SecondsLeft(expires, t0) > 0 && |ts| > 0
    requires !RunOut(TickAll(e, ts[..|ts| - 1], marks).engine) && RunOut(TickAll(e, ts, marks).engine)
    ensures expires - 1000 < ts[|ts| - 1] <= expires - 1000 + 2000
  {
    hide TickAll;
    var front := ts[..|ts| - 1];
    RunsUntilLastSecond(e, t0, front, marks, expires);
    RunsUntilLastSecond(e, t0, ts, marks, expires);
    SecondsNotNegative(expires, Latest(t0, front));
    SecondsNotNegative(expires, Latest(t0, ts));
    assert SecondsLeft(expires, Latest(t0, front)) > 0;
    assert SecondsLeft(expires, ts[|ts| - 1]) == 0;
  }
}
