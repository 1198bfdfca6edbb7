/** The agent's session engine: the rows it persists, the state it keeps in memory, the events
    it enqueues, and the countdown. A local session ref is the index of its row. */
module LocalSessions {
  import opened Domain
  import opened Sorting
  import opened Outbox

  datatype LocalStatus = Open | Closed | Lapsed

  datatype LocalRow = LocalRow(serverId: Option<nat>, started: int, expires: int, status: LocalStatus)

  datatype EngineState = NoSession | Running | Expiring

  /** `rows` are durable; the other fields live in memory. */
  datatype Engine = Engine(rows: seq<LocalRow>, state: EngineState, activeRef: Option<nat>, fired: set<int>, paused: bool)

  /** A session event handed to the outbox. */
  datatype Emission = Emission(etype: EventType, payload: Payload)

  datatype Warning = Warning(mark: int, localRef: nat, remaining: int)

  /** What an operation does: the engine, what it enqueues and raises, or that it throws. */
  datatype Effect = Effect(engine: Engine, emitted: seq<Emission>, raised: seq<Warning>, thrown: bool)

  function Quiet(e: Engine): Effect { Effect(e, [], [], false) }

  function Throws(e: Engine): Effect { Effect(e, [], [], true) }

  // ---- Specification of the operations ------------------------------------------

  function LoadActive(rows: seq<LocalRow>): (k: Option<nat>)
    ensures k.Some? ==> k.value < |rows| && rows[k.value].status.Open?
    ensures k.None? ==> forall i :: 0 <= i < |rows| ==> !rows[i].status.Open?
  {
    if |rows| == 0 then None
    else if LoadActive(rows[..|rows| - 1]).Some? then LoadActive(rows[..|rows| - 1])
    else if rows[|rows| - 1].status.Open? then Some(|rows| - 1)
    else None
  }

  function InState(e: Engine, state: EngineState, activeRef: Option<nat>): Engine {
    e.(state := state, activeRef := activeRef)
  }

  function Echo(suppress: bool, etype: EventType, payload: Payload): seq<Emission> {
    if suppress then [] else [Emission(etype, payload)]
  }

  function Expire(e: Engine, k: nat): Effect
    requires k < |e.rows|
  {
    Effect(InState(e.(rows := e.rows[k := e.rows[k].(status := Lapsed)]), NoSession, None),
           [Emission(SessionEnded, Payload(Some(k), Missing, Missing))], [], false)
  }

  function Recover(e: Engine, now: int): Effect {
    var k := LoadActive(e.rows);
    if k.None? then Quiet(InState(e, NoSession, None))
    else if now >= e.rows[k.value].expires then Expire(e, k.value)
    else Quiet(InState(e, Running, k))
  }

  function Start(e: Engine, planned: int, serverId: Option<nat>, suppress: bool, expires: Option<int>, now: int): Effect {
    if !e.state.NoSession? then Throws(e)
    else
      var until := if expires.Some? then expires.value else now + planned * MINUTE_MS;
      var k := |e.rows|;
      Effect(InState(e.(rows := e.rows + [LocalRow(serverId, now, until, Open)], fired := {}), Running, Some(k)),
             Echo(suppress, SessionStarted, Payload(Some(k), Number(planned), Missing)), [], false)
  }

  function Rescheduled(e: Engine, k: nat, expires: int, emitted: seq<Emission>): Effect
    requires k < |e.rows|
  {
    Effect(InState(e.(rows := e.rows[k := e.rows[k].(expires := expires)], fired := {}), Running, Some(k)),
           emitted, [], false)
  }

  function Extend(e: Engine, minutes: int, suppress: bool): Effect {
    var k := LoadActive(e.rows);
    if k.None? then Throws(e)
    else Rescheduled(e, k.value, e.rows[k.value].expires + minutes * MINUTE_MS,
                     Echo(suppress, SessionExtended, Payload(k, Missing, Number(minutes))))
  }

  function SetExpires(e: Engine, expires: int, suppress: bool): Effect {
    var k := LoadActive(e.rows);
    if k.None? then Throws(e)
    else if e.rows[k.value].expires == expires then Quiet(e)
    else Rescheduled(e, k.value, expires, Echo(suppress, SessionExtended, Payload(k, Missing, Missing)))
  }

  function End(e: Engine, cancelled: bool, suppress: bool): Effect {
    var k := LoadActive(e.rows);
    if k.None? then Quiet(e)
    else Effect(InState(e.(rows := e.rows[k.value := e.rows[k.value].(status := Closed)]), NoSession, None),
                Echo(suppress, if cancelled then SessionCancelled else SessionEnded, Payload(k, Missing, Missing)), [], false)
  }

  /** Whole seconds left, never negative. */
  function SecondsLeft(expires: int, now: int): int {
    if expires > now then (expires - now) / 1000 else 0
  }

  predicate Crosses(mark: int, remaining: int) {
    mark - 2 < remaining <= mark
  }

  datatype Raising = Raising(fired: set<int>, raised: seq<Warning>)

  function RaiseMarks(marks: seq<int>, fired: set<int>, k: nat, remaining: int): Raising {
    if |marks| == 0 then Raising(fired, [])
    else
      var r := RaiseMarks(marks[..|marks| - 1], fired, k, remaining);
      var mark := marks[|marks| - 1];
      if Crosses(mark, remaining) && mark !in r.fired
      then Raising(r.fired + {mark}, r.raised + [Warning(mark, k, remaining)])
      else r
  }

  function Tick(e: Engine, marks: seq<int>, now: int): Effect {
    var k := LoadActive(e.rows);
    if e.paused || e.state.NoSession? || k.None? then Quiet(e)
    else
      var remaining := SecondsLeft(e.rows[k.value].expires, now);
      var r := RaiseMarks(marks, e.fired, k.value, remaining);
      var e1 := e.(fired := r.fired);
      var e2 := if remaining <= 60 && e.state.Running? then InState(e1, Expiring, k) else e1;
      if remaining <= 0 then Expire(e2, k.value).(raised := r.raised) else Effect(e2, [], r.raised, false)
  }

  function Bind(e: Engine, k: nat, serverId: nat): Engine {
    if k < |e.rows| && e.rows[k].serverId.None? then e.(rows := e.rows[k := e.rows[k].(serverId := Some(serverId))]) else e
  }

  // ---- The engine as it is executed --------------------------------------------

  /** The outbox after enqueuing the emissions with the given fresh ids. */
  function Enqueued(o: Store, emitted: seq<Emission>, id: nat, at: int): Store
    requires |emitted| <= 1
  {
    if |emitted| == 0 then o
    else InsertRow(o.(counter := o.counter + 1), SyncEvent(id, o.counter + 1, emitted[0].etype, at, emitted[0].payload))
  }

  /** What an operation emits becomes the youngest pending event, under the next number, as it is. */
  lemma {:induction false} EmissionIsPending(o: Store, emitted: seq<Emission>, id: nat, at: int)
    requires |emitted| <= 1
    ensures var t := Enqueued(o, emitted, id, at);
            && t.counter == o.counter + |emitted| && t.cursor == o.cursor
            && PendingEvents(t.rows) == PendingEvents(o.rows) +
                 if |emitted| == 0 then [] else [SyncEvent(id, o.counter + 1, emitted[0].etype, at, emitted[0].payload)]
  {
    if |emitted| == 0 {
      assert PendingEvents(o.rows) + [] == PendingEvents(o.rows);
    } else {
      PendingAppend(o.rows, OutboxRow(SyncEvent(id, o.counter + 1, emitted[0].etype, at, emitted[0].payload), Pending));
    }
  }

  function Negated(x: int): int { -x }

  predicate Descending(marks: seq<int>) {
    forall i, j :: 0 <= i < j < |marks| ==> marks[i] >= marks[j]
  }

  lemma {:induction false} SortDescends(marks: seq<int>)
    ensures multiset(Sort(marks, Negated)) == multiset(marks) && Descending(Sort(marks, Negated))
  {
    var sorted := Sort(marks, Negated);
    SortCorrect(marks, Negated);
    forall i, j | 0 <= i < j < |sorted|
      ensures sorted[i] >= sorted[j]
    {
      assert Negated(sorted[i]) <= Negated(sorted[j]);
    }
  }

  class SessionEngine {
    const outbox: OutboxService
    const marks: seq<int>
    var rows: seq<LocalRow>
    var state: EngineState
    var activeRef: Option<nat>
    var fired: set<int>
    var paused: bool

    constructor (outbox: OutboxService, rows: seq<LocalRow>, marks: seq<int>)
      ensures this.outbox == outbox && multiset(this.marks) == multiset(marks) && Descending(this.marks)
      ensures View() == Engine(rows, NoSession, None, {}, false)
    {
      this.outbox := outbox;
      this.marks := Sort(marks, Negated);
      this.rows := rows;
      state, activeRef, fired, paused := NoSession, None, {}, false;
      SortDescends(marks);
    }

    function View(): Engine
      reads this
    {
      Engine(rows, state, activeRef, fired, paused)
    }

    method SetPaused(value: bool)
      modifies this
      ensures View() == old(View()).(paused := value)
    {
      paused := value;
    }

    method SetState(next: EngineState, ref: Option<nat>)
      modifies this
      ensures View() == InState(old(View()), next, ref)
    {
      state, activeRef := next, ref;
    }

    method BindServerSessionId(k: nat, serverId: nat)
      modifies this
      ensures View() == Bind(old(View()), k, serverId)
    {
      if k < |rows| && rows[k].serverId.None? {
        rows := rows[k := rows[k].(serverId := Some(serverId))];
      }
    }

    method ExpireInternal(k: nat, id: nat, at: int)
      requires k < |rows|
      modifies this, outbox
      ensures View() == Expire(old(View()), k).engine
      ensures outbox.View() == Enqueued(old(outbox.View()), Expire(old(View()), k).emitted, id, at)
    {
      rows := rows[k := rows[k].(status := Lapsed)];
      var _ := outbox.Enqueue(id, SessionEnded, at, Payload(Some(k), Missing, Missing));
      SetState(NoSession, None);
    }

    method RecoverOnBoot(now: int, id: nat, at: int)
      modifies this, outbox
      ensures var x := Recover(old(View()), now);
              View() == x.engine && outbox.View() == Enqueued(old(outbox.View()), x.emitted, id, at)
    {
      var k := LoadActive(rows);
      if k.None? {
        state, activeRef := NoSession, None;
        return;
      }
      if now >= rows[k.value].expires {
        ExpireInternal(k.value, id, at);
      } else {
        SetState(Running, k);
      }
    }

    method StartSession(planned: int, serverId: Option<nat>, suppress: bool, expires: Option<int>, now: int, id: nat, at: int)
      returns (thrown: bool)
      modifies this, outbox
      ensures var x := Start(old(View()), planned, serverId, suppress, expires, now);
              && View() == x.engine && thrown == x.thrown
              && outbox.View() == Enqueued(old(outbox.View()), x.emitted, id, at)
    {
      if state.Running? || state.Expiring? { return true; }
      var k := |rows|;
      var until := if expires.Some? then expires.value else now + planned * MINUTE_MS;
      rows := rows + [LocalRow(serverId, now, until, Open)];
      if !suppress {
        var _ := outbox.Enqueue(id, SessionStarted, at, Payload(Some(k), Number(planned), Missing));
      }
      fired := {};
      SetState(Running, Some(k));
      thrown := false;
    }

    method ExtendSession(minutes: int, suppress: bool, id: nat, at: int) returns (thrown: bool)
      modifies this, outbox
      ensures var x := Extend(old(View()), minutes, suppress);
              && View() == x.engine && thrown == x.thrown
              && outbox.View() == Enqueued(old(outbox.View()), x.emitted, id, at)
    {
      var k := LoadActive(rows);
      if k.None? { return true; }
      var newExpiry := rows[k.value].expires + minutes * MINUTE_MS;
      rows := rows[k.value := rows[k.value].(expires := newExpiry)];
      if !suppress {
        var _ := outbox.Enqueue(id, SessionExtended, at, Payload(k, Missing, Number(minutes)));
      }
      fired := {};
      SetState(Running, k);
      thrown := false;
    }

    method SetExpiresEffMs(expires: int, suppress: bool, id: nat, at: int) returns (thrown: bool)
      modifies this, outbox
      ensures var x := SetExpires(old(View()), expires, suppress);
              && View() == x.engine && thrown == x.thrown
              && outbox.View() == Enqueued(old(outbox.View()), x.emitted, id, at)
    {
      var k := LoadActive(rows);
      if k.None? { return true; }
      if rows[k.value].expires == expires { return false; }
      rows := rows[k.value := rows[k.value].(expires := expires)];
      if !suppress {
        var _ := outbox.Enqueue(id, SessionExtended, at, Payload(k, Missing, Missing));
      }
      fired := {};
      SetState(Running, k);
      thrown := false;
    }

    method EndSession(cancelled: bool, suppress: bool, id: nat, at: int)
      modifies this, outbox
      ensures var x := End(old(View()), cancelled, suppress);
              View() == x.engine && outbox.View() == Enqueued(old(outbox.View()), x.emitted, id, at)
    {
      var k := LoadActive(rows);
      if k.None? { return; }
      rows := rows[k.value := rows[k.value].(status := Closed)];
      if !suppress {
        var _ := outbox.Enqueue(id, if cancelled then SessionCancelled else SessionEnded, at, Payload(k, Missing, Missing));
      }
      SetState(NoSession, None);
    }

    method TickOnce(now: int, id: nat, at: int) returns (raised: seq<Warning>)
      modifies this, outbox
      ensures var x := Tick(old(View()), marks, now);
              && View() == x.engine && raised == x.raised
              && outbox.View() == Enqueued(old(outbox.View()), x.emitted, id, at)
    {
      raised := [];
      if paused { return; }
      if !state.Running? && !state.Expiring? { return; }
      var k := LoadActive(rows);
      if k.None? { return; }
      var remaining := SecondsLeft(rows[k.value].expires, now);
      for i := 0 to |marks|
        invariant View() == old(View()).(fired := fired)
        invariant Raising(fired, raised) == RaiseMarks(marks[..i], old(fired), k.value, remaining)
        invariant outbox.View() == old(outbox.View())
      {
        var mark := marks[i];
        assert marks[..i + 1][..i] == marks[..i];
        if remaining <= mark && remaining > mark - 2 && mark !in fired {
          fired := fired + {mark};
          raised := raised + [Warning(mark, k.value, remaining)];
        }
      }
      assert marks[..|marks|] == marks;
      if remaining <= 60 && state.Running? {
        SetState(Expiring, k);
      }
      if remaining <= 0 {
        ExpireInternal(k.value, id, at);
      }
    }
  }

  // ---- Runs with crashes -------------------------------------------------------

  datatype Op =
    | StartOp(planned: int, serverId: Option<nat>, suppress: bool, expires: Option<int>, now: int)
    | ExtendOp(minutes: int, suppress: bool)
    | SetExpiresOp(instant: int, suppress: bool)
    | EndOp(cancelled: bool, suppress: bool)
    | TickOp(now: int)
    | BindOp(k: nat, bound: nat)
    | PauseOp(value: bool)

  function Apply(e: Engine, op: Op, marks: seq<int>): Effect {
    match op
    case StartOp(planned, serverId, suppress, expires, now) => Start(e, planned, serverId, suppress, expires, now)
    case ExtendOp(minutes, suppress) => Extend(e, minutes, suppress)
    case SetExpiresOp(instant, suppress) => SetExpires(e, instant, suppress)
    case EndOp(cancelled, suppress) => End(e, cancelled, suppress)
    case TickOp(now) => Tick(e, marks, now)
    case BindOp(k, bound) => Quiet(Bind(e, k, bound))
    case PauseOp(value) => Quiet(e.(paused := value))
  }

  /** The agent process: its engine, all session events ever enqueued, and whether it is up. */
  datatype Agent = Agent(engine: Engine, trace: seq<Emission>, up: bool)

  /** Every operation writes its row first and enqueues second, so a crash inside it leaves
      either nothing, or the row without the event. */
  datatype Move =
    | Act(op: Op)
    | CrashInside(op: Op)
    | CrashIdle
    | Boot(now: int)
    | CrashInBoot(now: int)

  predicate Allowed(a: Agent, m: Move) {
    if m.Boot? || m.CrashInBoot? then !a.up else a.up
  }

  /** A new process finds the rows and nothing else. */
  function Rebooted(e: Engine): Engine {
    Engine(e.rows, NoSession, None, {}, false)
  }

  function Make(a: Agent, m: Move, marks: seq<int>): Agent
    requires Allowed(a, m)
  {
    match m
    case Act(op) =>
      var x := Apply(a.engine, op, marks);
      Agent(x.engine, a.trace + x.emitted, true)
    case CrashInside(op) => Agent(Rebooted(Apply(a.engine, op, marks).engine), a.trace, false)
    case CrashIdle => Agent(Rebooted(a.engine), a.trace, false)
    case Boot(now) =>
      var x := Recover(a.engine, now);
      Agent(x.engine, a.trace + x.emitted, true)
    case CrashInBoot(now) => Agent(Rebooted(Recover(a.engine, now).engine), a.trace, false)
  }

  predicate CanMake(a: Agent, ms: seq<Move>, marks: seq<int>)
    decreases |ms|
  {
    |ms| == 0 || (Allowed(a, ms[0]) && CanMake(Make(a, ms[0], marks), ms[1..], marks))
  }

  function MakeAll(a: Agent, ms: seq<Move>, marks: seq<int>): Agent
    requires CanMake(a, ms, marks)
    decreases |ms|
  {
    if |ms| == 0 then a else MakeAll(Make(a, ms[0], marks), ms[1..], marks)
  }

  function RefOf(x: Emission): int {
    if x.payload.localRef.Some? then x.payload.localRef.value else -1
  }

  predicate Ends(x: Emission) {
    x.etype.SessionEnded? || x.etype.SessionCancelled?
  }

  /** Blocks `Started? Extended* (Ended or Cancelled)?`, one for each local session, in the
      order of the sessions: a start opens its block and an end closes it. */
  ghost predicate InBlocks(trace: seq<Emission>) {
    && (forall i :: 0 <= i < |trace| ==> trace[i].etype.IsSession())
    && (forall i, j :: 0 <= i < j < |trace| ==> RefOf(trace[i]) <= RefOf(trace[j]))
    && (forall i, j :: 0 <= i < j < |trace| && (trace[j].etype.SessionStarted? || Ends(trace[i]))
                       ==> RefOf(trace[i]) < RefOf(trace[j]))
  }

  /** At most one row is open, and it is the last one. */
  predicate LastOpen(rows: seq<LocalRow>) {
    forall i :: 0 <= i < |rows| - 1 ==> !rows[i].status.Open?
  }

  predicate HasOpen(rows: seq<LocalRow>) {
    |rows| > 0 && rows[|rows| - 1].status.Open?
  }

  /** The events name existing rows, and an open row has not ended yet. */
  ghost predicate TraceFits(rows: seq<LocalRow>, trace: seq<Emission>) {
    && (forall i :: 0 <= i < |trace| ==> 0 <= RefOf(trace[i]) < |rows|)
    && (HasOpen(rows) ==> forall i :: 0 <= i < |trace| && Ends(trace[i]) ==> RefOf(trace[i]) < |rows| - 1)
  }

  /** The memory agrees with the rows: there is a current session exactly if a row is open, and
      it is that row. */
  predicate Agrees(e: Engine) {
    && (!e.state.NoSession? <==> HasOpen(e.rows))
    && e.activeRef == (if HasOpen(e.rows) then Some(|e.rows| - 1) else None)
  }

  ghost predicate Good(a: Agent) {
    && LastOpen(a.engine.rows) && TraceFits(a.engine.rows, a.trace) && InBlocks(a.trace)
    && (a.up ==> Agrees(a.engine))
  }

  lemma {:induction false} LoadActiveIsLast(rows: seq<LocalRow>)
    requires LastOpen(rows)
    ensures LoadActive(rows) == if HasOpen(rows) then Some(|rows| - 1) else None
  {
  }

  /** What an operation may do to rows and trace. */
  ghost predicate Faithful(e: Engine, x: Effect) {
    && LastOpen(x.engine.rows) && |e.rows| <= |x.engine.rows| && |x.emitted| <= 1
    && (|x.engine.rows| > |e.rows| ==> !HasOpen(e.rows))
    && (HasOpen(x.engine.rows) && |x.engine.rows| == |e.rows| ==> HasOpen(e.rows))
    && (|x.emitted| == 1 ==>
          var m := x.emitted[0];
          && m.etype.IsSession() && RefOf(m) == |x.engine.rows| - 1
          && (m.etype.SessionStarted? <==> |x.engine.rows| > |e.rows|)
          && (|x.engine.rows| == |e.rows| ==> HasOpen(e.rows))
          && (Ends(m) ==> !HasOpen(x.engine.rows)))
  }

  lemma {:induction false} ApplyIsFaithful(e: Engine, op: Op, marks: seq<int>)
    requires LastOpen(e.rows) && Agrees(e)
    ensures Faithful(e, Apply(e, op, marks)) && Agrees(Apply(e, op, marks).engine)
  {
    hide RaiseMarks;
    LoadActiveIsLast(e.rows);
  }

  /** The row of the open session, if there is one. */
  function OpenRow(rows: seq<LocalRow>): Option<LocalRow> {
    if HasOpen(rows) then Some(rows[|rows| - 1]) else None
  }

  /** Only the last row differs, and it is `row` now. */
  predicate LastBecomes(rows: seq<LocalRow>, after: seq<LocalRow>, row: LocalRow) {
    |rows| > 0 && after == rows[..|rows| - 1] + [row]
  }

  /** What the launcher's and the server's calls do. A start adds an open row and a set of minutes or
      an expiry; an extension and an outright expiry move the open row's; an end closes it. Unless
      suppressed, the call that changed a row tells the server so: a start with its minutes, an
      extension with its minutes, a cancellation as such and every other end as an end. */
  lemma {:induction false} CallOutcome(e: Engine, op: Op, marks: seq<int>)
    requires LastOpen(e.rows) && Agrees(e)
    requires op.StartOp? || op.ExtendOp? || op.SetExpiresOp? || op.EndOp?
    ensures var x, n, open := Apply(e, op, marks), |e.rows|, OpenRow(e.rows);
            var last := Some(n - 1);
            && x.raised == []
            && (op.StartOp? ==>
                  if open.Some? then x == Effect(e, [], [], true)
                  else
                    && !x.thrown && x.engine.state.Running? && x.engine.activeRef == Some(n)
                    && x.engine.rows == e.rows + [LocalRow(op.serverId, op.now,
                         if op.expires.Some? then op.expires.value else op.now + 60_000 * op.planned, Open)]
                    && x.emitted == if op.suppress then []
                                    else [Emission(SessionStarted, Payload(Some(n), Number(op.planned), Missing))])
            && (op.ExtendOp? ==>
                  if open.None? then x == Effect(e, [], [], true)
                  else
                    && !x.thrown && x.engine.state.Running? && x.engine.activeRef == Some(n - 1)
                    && LastBecomes(e.rows, x.engine.rows, open.value.(expires := open.value.expires + 60_000 * op.minutes))
                    && x.emitted == if op.suppress then []
                                    else [Emission(SessionExtended, Payload(Some(n - 1), Missing, Number(op.minutes)))])
            && (op.SetExpiresOp? ==>
                  if open.None? then x == Effect(e, [], [], true)
                  else if open.value.expires == op.instant then x == Effect(e, [], [], false)
                  else
                    && !x.thrown && x.engine.state.Running? && x.engine.activeRef == Some(n - 1)
                    && LastBecomes(e.rows, x.engine.rows, open.value.(expires := op.instant))
                    && x.emitted == if op.suppress then []
                                    else [Emission(SessionExtended, Payload(Some(n - 1), Missing, Missing))])
            && (op.EndOp? ==>
                  if open.None? then x == Effect(e, [], [], false)
                  else
                    && !x.thrown && x.engine.state.NoSession? && x.engine.activeRef.None?
                    && LastBecomes(e.rows, x.engine.rows, open.value.(status := Closed))
                    && |x.emitted| == (if op.suppress then 0 else 1)
                    && (!op.suppress ==>
                          && x.emitted[0].payload == Payload(Some(n - 1), Missing, Missing)
                          && (x.emitted[0].etype == SessionCancelled <==> op.cancelled)
                          && (x.emitted[0].etype == SessionEnded <==> !op.cancelled)))
  {
    LoadActiveIsLast(e.rows);
  }

  /** A tick of a paused engine, or without a session, does nothing. Any other one turns the session to
      expiring for its last minute and lets it lapse in its last second, and then it always tells the
      server that the session ended; each warning names the session and the seconds left, and higher marks come first. */
  lemma {:induction false} TickOutcome(e: Engine, marks: seq<int>, now: int)
    requires LastOpen(e.rows) && Agrees(e)
    ensures var x, n, open := Tick(e, marks, now), |e.rows|, OpenRow(e.rows);
            if e.paused || open.None? then x == Effect(e, [], [], false)
            else
              && !x.thrown
              && (Descending(marks) ==> forall i, j :: 0 <= i < j < |x.raised| ==> x.raised[i].mark > x.raised[j].mark)
              && (forall i :: 0 <= i < |x.raised| ==>
                    var w := x.raised[i];
                    && w.localRef == n - 1 && w.mark in marks && w.mark !in e.fired && w.mark in x.engine.fired
                    && w.mark - 2 < w.remaining <= w.mark
                    && 1000 * w.remaining <= (if open.value.expires > now then open.value.expires - now else 0) < 1000 * (w.remaining + 1))
              && if open.value.expires - now < 1000 then
                   && x.engine.state.NoSession? && x.engine.activeRef.None?
                   && LastBecomes(e.rows, x.engine.rows, open.value.(status := Lapsed))
                   && x.emitted == [Emission(SessionEnded, Payload(Some(n - 1), Missing, Missing))]
                 else
                   && x.engine.rows == e.rows && x.emitted == [] && x.engine.activeRef == Some(n - 1)
                   && (x.engine.state.Expiring? <==> e.state.Expiring? || open.value.expires - now < 61_000)
  {
    LoadActiveIsLast(e.rows);
    if !e.paused && HasOpen(e.rows) {
      var remaining := SecondsLeft(e.rows[|e.rows| - 1].expires, now);
      WarningsTell(marks, e.fired, |e.rows| - 1, remaining);
      hide RaiseMarks;
    }
  }

  lemma {:induction false} WarningsTell(marks: seq<int>, fired: set<int>, k: nat, remaining: int)
    ensures var r := RaiseMarks(marks, fired, k, remaining);
            && fired <= r.fired
            && (Descending(marks) ==> forall i, j :: 0 <= i < j < |r.raised| ==> r.raised[i].mark > r.raised[j].mark)
            && forall i :: 0 <= i < |r.raised| ==>
                 var w := r.raised[i];
                 && w.localRef == k && w.remaining == remaining && w.mark in marks && w.mark !in fired && w.mark in r.fired
                 && w.mark - 2 < remaining <= w.mark
  {
    if |marks| > 0 {
      WarningsTell(marks[..|marks| - 1], fired, k, remaining);
    }
  }

  /** A session keeps the first server id that it is bound to; nothing else changes. */
  lemma {:induction false} FirstBindingStays(e: Engine, k: nat, first: nat, second: nat)
    ensures var x := Bind(e, k, first);
            && x.(rows := e.rows) == e && |x.rows| == |e.rows|
            && (forall i :: 0 <= i < |e.rows| && i != k ==> x.rows[i] == e.rows[i])
            && (k < |e.rows| ==>
                  x.rows[k] == if e.rows[k].serverId.Some? then e.rows[k] else e.rows[k].(serverId := Some(first)))
            && Bind(x, k, second) == x
  {
  }

  lemma {:induction false} RecoverIsFaithful(e: Engine, now: int)
    requires LastOpen(e.rows)
    ensures Faithful(e, Recover(e, now)) && Agrees(Recover(e, now).engine)
  {
    LoadActiveIsLast(e.rows);
  }

  lemma {:induction false} FaithfulKeepsTrace(e: Engine, trace: seq<Emission>, x: Effect)
    requires TraceFits(e.rows, trace) && InBlocks(trace) && Faithful(e, x)
    ensures TraceFits(x.engine.rows, trace) && InBlocks(trace)
    ensures TraceFits(x.engine.rows, trace + x.emitted) && InBlocks(trace + x.emitted)
  {
    if |x.emitted| == 0 {
      assert trace + x.emitted == trace;
    } else {
      assert x.emitted == [x.emitted[0]];
    }
  }

  lemma {:induction false} MakeKeepsGood(a: Agent, m: Move, marks: seq<int>)
    requires Good(a) && Allowed(a, m)
    ensures Good(Make(a, m, marks))
  {
    hide Apply, Recover, TraceFits, InBlocks;
    match m
    case Act(op) =>
      ApplyIsFaithful(a.engine, op, marks);
      FaithfulKeepsTrace(a.engine, a.trace, Apply(a.engine, op, marks));
    case CrashInside(op) =>
      ApplyIsFaithful(a.engine, op, marks);
      FaithfulKeepsTrace(a.engine, a.trace, Apply(a.engine, op, marks));
    case CrashIdle =>
    case Boot(now) =>
      RecoverIsFaithful(a.engine, now);
      FaithfulKeepsTrace(a.engine, a.trace, Recover(a.engine, now));
    case CrashInBoot(now) =>
      RecoverIsFaithful(a.engine, now);
      FaithfulKeepsTrace(a.engine, a.trace, Recover(a.engine, now));
  }

  /** Through every run of operations, crashes at any statement and reboots: at most one row is
      open; while the agent is up its memory agrees with the rows; and the events it ever
      enqueued form one block for each session. */
  lemma {:induction false} EngineStaysGood(a: Agent, ms: seq<Move>, marks: seq<int>)
    requires Good(a) && CanMake(a, ms, marks)
    ensures Good(MakeAll(a, ms, marks))
    decreases |ms|
  {
    hide Good, Allowed, Make;
    if |ms| > 0 {
      MakeKeepsGood(a, ms[0], marks);
      EngineStaysGood(Make(a, ms[0], marks), ms[1..], marks);
    }
  }
}
