/** From the customer's launcher to the server's session table: whatever the network and the
    other PCs do, the drained server agrees with the agent's own sessions. */
module Convergence {
  import opened Domain
  import opened AckCursor
  import Pricing
  import opened SyncServer
  import opened Outbox
  import opened SyncUpload
  import opened Lifecycle
  import opened OnePc
  import L = LocalSessions
  import opened Protocol

  // ---- The life of a session as the events tell it -----------------------------

  /** `excess` is what the clamping of minutes has added to what was asked for. */
  datatype Life = Life(planned: int, extended: int, excess: int, open: bool, cancelled: bool)

  function Asked(f: Field): int {
    if f.Number? then f.n else 0
  }

  function LifeStep(lives: seq<Life>, e: SyncEvent): seq<Life> {
    var n := |lives|;
    if e.etype.SessionStarted? then 
      lives + [Life(PlannedMinutes(e.payload), 0, PlannedMinutes(e.payload) - Asked(e.payload.planned), true, false)]
    else if n == 0 then lives
    else if e.etype.SessionExtended? then
      var life, minutes := lives[n - 1], ExtensionMinutes(e.payload);
      lives[n - 1 := life.(extended := life.extended + minutes, excess := life.excess + minutes - Asked(e.payload.minutes))]
    else if e.etype.SessionEnded? || e.etype.SessionCancelled? then
      lives[n - 1 := lives[n - 1].(open := false, cancelled := e.etype.SessionCancelled?)]
    else lives
  }

  function Lives(events: seq<SyncEvent>): seq<Life> {
    if |events| == 0 then [] else LifeStep(Lives(events[..|events| - 1]), events[|events| - 1])
  }

  predicate AnyOpen(lives: seq<Life>) {
    |lives| > 0 && lives[|lives| - 1].open
  }

  /** A start comes when nothing is open; an extension or an end when something is. */
  predicate Fits(lives: seq<Life>, e: SyncEvent) {
    e.etype.IsSession() ==> (e.etype.SessionStarted? <==> !AnyOpen(lives))
  }

  predicate Orderly(events: seq<SyncEvent>) {
    |events| > 0 ==> (Orderly(events[..|events| - 1]) && Fits(Lives(events[..|events| - 1]), events[|events| - 1]))
  }

  /** Only the last life can be open. */
  predicate LastLifeOpen(lives: seq<Life>) {
    forall i :: 0 <= i < |lives| - 1 ==> !lives[i].open
  }

  lemma {:induction false} LivesAppend(events: seq<SyncEvent>, e: SyncEvent)
    ensures Lives(events + [e]) == LifeStep(Lives(events), e)
    ensures Orderly(events + [e]) <==> Orderly(events) && Fits(Lives(events), e)
  {
    assert (events + [e])[..|events|] == events;
  }

  lemma {:induction false} OrderlyPrefix(events: seq<SyncEvent>, n: nat)
    requires Orderly(events) && n <= |events|
    ensures Orderly(events[..n])
  {
    if n < |events| {
      OrderlyPrefix(events[..|events| - 1], n);
      assert events[..|events| - 1][..n] == events[..n];
    } else {
      assert events[..n] == events;
    }
  }

  lemma {:induction false} OnlyLastLifeOpen(events: seq<SyncEvent>)
    requires Orderly(events)
    ensures LastLifeOpen(Lives(events))
  {
    if |events| > 0 {
      OnlyLastLifeOpen(events[..|events| - 1]);
    }
  }

  // ---- The server reads the events in order ------------------------------------

  /** With which rules and at what time an event was first processed. */
  datatype Arrival = Arrival(ctx: Context, now: int)

  function ServeLog(events: seq<SyncEvent>, arrivals: seq<Arrival>): Server
    requires |arrivals| == |events|
  {
    if |events| == 0 then Server([], [], map[])
    else
      var n := |events| - 1;
      Process(ServeLog(events[..n], arrivals[..n]), events[n], arrivals[n].ctx, arrivals[n].now).server
  }

  lemma {:induction false} ServeLogAppend(events: seq<SyncEvent>, arrivals: seq<Arrival>, e: SyncEvent, a: Arrival)
    requires |arrivals| == |events|
    ensures ServeLog(events + [e], arrivals + [a]) == Process(ServeLog(events, arrivals), e, a.ctx, a.now).server
  {
    hide Process;
    assert (events + [e])[..|events|] == events && (arrivals + [a])[..|arrivals|] == arrivals;
  }

  /** Event i has number i + 1 and an id of its own. */
  predicate Enumerated(events: seq<SyncEvent>) {
    && (forall i :: 0 <= i < |events| ==> events[i].seqNo == i + 1)
    && (forall i, j :: 0 <= i < j < |events| ==> events[i].id != events[j].id)
  }

  predicate From(arrivals: seq<Arrival>, pc: nat) {
    forall i :: 0 <= i < |arrivals| ==> arrivals[i].ctx.pc == pc
  }

  /** The server has recorded exactly these events. */
  ghost predicate RecordsExactly(offline: map<nat, OfflineRow>, events: seq<SyncEvent>) {
    && (forall i :: 0 <= i < |events| ==> events[i].id in offline)
    && (forall id :: id in offline ==> exists i :: 0 <= i < |events| && events[i].id == id && offline[id].seqNo == events[i].seqNo)
  }

  lemma {:induction false} UnseenIsUnknown(offline: map<nat, OfflineRow>, events: seq<SyncEvent>, e: SyncEvent, pc: nat)
    requires RecordsExactly(offline, events) && Enumerated(events + [e])
    ensures !Known(offline, pc, e)
  {
    var all := events + [e];
    assert all[|events|] == e;
    forall id | id in offline
      ensures id != e.id && offline[id].seqNo != e.seqNo
    {
      var i :| 0 <= i < |events| && events[i].id == id && offline[id].seqNo == events[i].seqNo;
      assert all[i] == events[i];
    }
  }

  lemma {:induction false} ProcessRecordsNext(s: Server, events: seq<SyncEvent>, e: SyncEvent, ctx: Context, now: int)
    requires RecordsExactly(s.offline, events) && !Known(s.offline, ctx.pc, e)
    ensures RecordsExactly(Process(s, e, ctx, now).server.offline, events + [e])
  {
    var t := Process(s, e, ctx, now).server;
    ProcessRecords(s, e, ctx, now);
    NewRow(s, e, ctx, now);
    var all := events + [e];
    assert all[|events|] == e;
    forall id | id in t.offline
      ensures exists i :: 0 <= i < |all| && all[i].id == id && t.offline[id].seqNo == all[i].seqNo
    {
      if id != e.id {
        var i :| 0 <= i < |events| && events[i].id == id && s.offline[id].seqNo == events[i].seqNo;
        assert all[i] == events[i];
      }
    }
  }

  lemma {:induction false} NewRow(s: Server, e: SyncEvent, ctx: Context, now: int)
    requires !Known(s.offline, ctx.pc, e)
    ensures var t := Process(s, e, ctx, now).server; e.id in t.offline && t.offline[e.id].seqNo == e.seqNo
  {
    hide Pricing.Price;
  }

  lemma {:induction false} EnumeratedPrefix(events: seq<SyncEvent>, n: nat)
    requires Enumerated(events) && n <= |events|
    ensures Enumerated(events[..n])
  {
  }

  lemma {:induction false} ServeLogRecords(events: seq<SyncEvent>, arrivals: seq<Arrival>, pc: nat)
    requires |arrivals| == |events| && Enumerated(events) && From(arrivals, pc)
    ensures RecordsExactly(ServeLog(events, arrivals).offline, events)
  {
    if |events| > 0 {
      hide Process, RecordsExactly, Known, ServeLog, Enumerated;
      var n := |events| - 1;
      EnumeratedPrefix(events, n);
      ServeLogRecords(events[..n], arrivals[..n], pc);
      assert events == events[..n] + [events[n]] && arrivals == arrivals[..n] + [arrivals[n]];
      ServeLogAppend(events[..n], arrivals[..n], events[n], arrivals[n]);
      var s := ServeLog(events[..n], arrivals[..n]);
      UnseenIsUnknown(s.offline, events[..n], events[n], pc);
      ProcessRecordsNext(s, events[..n], events[n], arrivals[n].ctx, arrivals[n].now);
    } else {
      NothingRecorded();
    }
  }

  lemma {:induction false} NothingRecorded()
    ensures RecordsExactly(map[], [])
  {
  }

  // ---- The server's sessions follow the lives ----------------------------------

  /** The start reaches the server before the session it starts has run out. */
  predicate Timely(e: SyncEvent, now: int) {
    now < e.occurredAt + PlannedMinutes(e.payload) * MINUTE_MS
  }

  /** For each start, whether it was timely. */
  function OnTime(events: seq<SyncEvent>, arrivals: seq<Arrival>): seq<bool>
    requires |arrivals| == |events|
  {
    if |events| == 0 then []
    else
      var n := |events| - 1;
      OnTime(events[..n], arrivals[..n]) + if events[n].etype.SessionStarted? then [Timely(events[n], arrivals[n].now)] else []
  }

  function ExpectedStatus(life: Life): Status {
    if life.open then Active else if life.cancelled then Cancelled else Ended
  }

  predicate RowFollows(row: Session, life: Life, timely: bool, pc: nat) {
    && row.pc == pc && row.planned == life.planned
    && (timely ==> row.extended == life.extended && row.status == ExpectedStatus(life))
    && (!timely ==> row.extended == 0 && row.status == Expired)
  }

  ghost predicate Follows(sessions: seq<Session>, lives: seq<Life>, onTime: seq<bool>, pc: nat) {
    && |sessions| == |lives| == |onTime|
    && forall i :: 0 <= i < |lives| ==> RowFollows(sessions[i], lives[i], onTime[i], pc)
  }

  lemma {:induction false} ActiveIsLastLife(sessions: seq<Session>, lives: seq<Life>, onTime: seq<bool>, pc: nat)
    requires Follows(sessions, lives, onTime, pc) && LastLifeOpen(lives)
    ensures var n := |lives|;
            LoadActiveSession(sessions, pc) == if AnyOpen(lives) && onTime[n - 1] then Some(n - 1) else None
  {
    forall i | 0 <= i < |sessions|
      ensures IsActiveOn(sessions[i], pc) <==> i == |lives| - 1 && AnyOpen(lives) && onTime[|lives| - 1]
    {
      assert RowFollows(sessions[i], lives[i], onTime[i], pc);
    }
    assert IsLatestActive(sessions, pc, LoadActiveSession(sessions, pc));
  }

  lemma {:induction false} ProcessFollows(s: Server, lives: seq<Life>, onTime: seq<bool>, e: SyncEvent, ctx: Context, now: int)
    requires Follows(s.sessions, lives, onTime, ctx.pc) && LastLifeOpen(lives)
    requires Fits(lives, e) && !Known(s.offline, ctx.pc, e)
    ensures Follows(Process(s, e, ctx, now).server.sessions, LifeStep(lives, e),
                    onTime + if e.etype.SessionStarted? then [Timely(e, now)] else [], ctx.pc)
  {
    hide Pricing.Price, LoadActiveSession;
    ActiveIsLastLife(s.sessions, lives, onTime, ctx.pc);
    assert onTime + [] == onTime;
  }

  lemma {:induction false} ServerFollows(events: seq<SyncEvent>, arrivals: seq<Arrival>, pc: nat)
    requires |arrivals| == |events| && Enumerated(events) && Orderly(events) && From(arrivals, pc)
    ensures Follows(ServeLog(events, arrivals).sessions, Lives(events), OnTime(events, arrivals), pc)
  {
    if |events| > 0 {
      hide Process, Known, RecordsExactly, Follows, LifeStep, Enumerated;
      var n := |events| - 1;
      EnumeratedPrefix(events, n);
      ServerFollows(events[..n], arrivals[..n], pc);
      ServeLogRecords(events[..n], arrivals[..n], pc);
      assert events == events[..n] + [events[n]];
      var s := ServeLog(events[..n], arrivals[..n]);
      UnseenIsUnknown(s.offline, events[..n], events[n], pc);
      OnlyLastLifeOpen(events[..n]);
      ProcessFollows(s, Lives(events[..n]), OnTime(events[..n], arrivals[..n]), events[n], arrivals[n].ctx, arrivals[n].now);
    }
  }

  // ---- The agent's rows match the lives ----------------------------------------

  predicate RowMatches(row: L.LocalRow, life: Life) {
    && (row.status.Open? <==> life.open)
    && row.expires - row.started == (life.planned + life.extended - life.excess) * MINUTE_MS
  }

  ghost predicate EngineMatches(e: L.Engine, lives: seq<Life>) {
    && L.LastOpen(e.rows) && L.Agrees(e)
    && |e.rows| == |lives|
    && forall i :: 0 <= i < |lives| ==> RowMatches(e.rows[i], lives[i])
  }

  /** Operations of the launcher, echoed to the outbox. The agent passes any minutes on. */
  predicate LauncherOp(op: L.Op) {
    match op
    case StartOp(_, _, suppress, expires, _) => !suppress && expires.None?
    case ExtendOp(_, suppress) => !suppress
    case SetExpiresOp(_, _) => false
    case EndOp(_, suppress) => !suppress
    case _ => true
  }

  /** What the agent does on its own; a reboot recovers from the rows. */
  datatype LocalStep = Use(op: L.Op) | Reboot(now: int)

  function LocalEffect(e: L.Engine, step: LocalStep, marks: seq<int>): L.Effect {
    match step
    case Use(op) => L.Apply(e, op, marks)
    case Reboot(now) => L.Recover(L.Rebooted(e), now)
  }

  /** The lives after the emissions of one operation. */
  function LivesAfter(lives: seq<Life>, emitted: seq<L.Emission>): seq<Life> {
    if |emitted| == 0 then lives
    else LifeStep(lives, SyncEvent(0, 0, emitted[0].etype, 0, emitted[0].payload))
  }

  /** The operation keeps the match, and its event fits the lives so far. */
  ghost predicate StepMatches(lives: seq<Life>, x: L.Effect) {
    && |x.emitted| <= 1
    && EngineMatches(x.engine, LivesAfter(lives, x.emitted))
    && (|x.emitted| == 1 ==> x.emitted[0].etype.IsSession()
                             && (x.emitted[0].etype.SessionStarted? <==> !AnyOpen(lives)))
  }

  /** An event about the open session changes that session only. */
  lemma {:induction false} LastRowMatches(e: L.Engine, lives: seq<Life>, row: L.LocalRow, life: Life, x: L.Engine)
    requires EngineMatches(e, lives) && L.HasOpen(e.rows) && RowMatches(row, life) && L.Agrees(x)
    requires x.rows == e.rows[|e.rows| - 1 := row]
    ensures EngineMatches(x, lives[|lives| - 1 := life])
  {
  }

  lemma {:induction false} StartMatches(e: L.Engine, lives: seq<Life>, op: L.Op)
    requires EngineMatches(e, lives) && op.StartOp? && LauncherOp(op)
    ensures StepMatches(lives, L.Start(e, op.planned, op.serverId, op.suppress, op.expires, op.now))
  {
  }

  lemma {:induction false} ExtendMatches(e: L.Engine, lives: seq<Life>, op: L.Op)
    requires EngineMatches(e, lives) && op.ExtendOp? && LauncherOp(op)
    ensures StepMatches(lives, L.Extend(e, op.minutes, op.suppress))
  {
    L.LoadActiveIsLast(e.rows);
    if L.HasOpen(e.rows) {
      var n := |e.rows| - 1;
      assert RowMatches(e.rows[n], lives[n]);
      var x := L.Extend(e, op.minutes, op.suppress).engine;
      var minutes := ExtensionMinutes(Payload(Some(n), Missing, Number(op.minutes)));
      LastRowMatches(e, lives, x.rows[n], lives[n].(extended := lives[n].extended + minutes,
                                                    excess := lives[n].excess + minutes - op.minutes), x);
    }
  }

  lemma {:induction false} EndMatches(e: L.Engine, lives: seq<Life>, op: L.Op)
    requires EngineMatches(e, lives) && op.EndOp? && LauncherOp(op)
    ensures StepMatches(lives, L.End(e, op.cancelled, op.suppress))
  {
    L.LoadActiveIsLast(e.rows);
    if L.HasOpen(e.rows) {
      var n := |e.rows| - 1;
      assert RowMatches(e.rows[n], lives[n]);
      var x := L.End(e, op.cancelled, op.suppress).engine;
      LastRowMatches(e, lives, x.rows[n], lives[n].(open := false, cancelled := op.cancelled), x);
    }
  }

  lemma {:induction false} ExpireMatches(e: L.Engine, lives: seq<Life>)
    requires EngineMatches(e, lives) && L.HasOpen(e.rows)
    ensures StepMatches(lives, L.Expire(e, |e.rows| - 1))
  {
    var n := |e.rows| - 1;
    assert RowMatches(e.rows[n], lives[n]);
    var x := L.Expire(e, n).engine;
    LastRowMatches(e, lives, x.rows[n], lives[n].(open := false, cancelled := false), x);
  }

  lemma {:induction false} TickMatches(e: L.Engine, lives: seq<Life>, marks: seq<int>, now: int)
    requires EngineMatches(e, lives)
    ensures StepMatches(lives, L.Tick(e, marks, now))
  {
    hide L.RaiseMarks, L.SecondsLeft;
    L.LoadActiveIsLast(e.rows);
    if !e.paused && L.HasOpen(e.rows) {
      var n := |e.rows| - 1;
      var remaining := L.SecondsLeft(e.rows[n].expires, now);
      var e1 := e.(fired := L.RaiseMarks(marks, e.fired, n, remaining).fired);
      var e2 := if remaining <= 60 && e.state.Running? then L.InState(e1, L.Expiring, Some(n)) else e1;
      assert EngineMatches(e2, lives);
      ExpireMatches(e2, lives);
    }
  }

  lemma {:induction false} RebootMatches(e: L.Engine, lives: seq<Life>, now: int)
    requires EngineMatches(e, lives)
    ensures StepMatches(lives, L.Recover(L.Rebooted(e), now))
  {
    L.LoadActiveIsLast(e.rows);
    if L.HasOpen(e.rows) {
      var e1 := L.InState(L.Rebooted(e), L.Running, Some(|e.rows| - 1));
      assert EngineMatches(e1, lives);
      ExpireMatches(e1, lives);
      assert L.Expire(e1, |e.rows| - 1) == L.Expire(L.Rebooted(e), |e.rows| - 1);
    }
  }

  lemma {:induction false} BindMatches(e: L.Engine, lives: seq<Life>, k: nat, serverId: nat)
    requires EngineMatches(e, lives)
    ensures StepMatches(lives, L.Quiet(L.Bind(e, k, serverId)))
  {
  }

  lemma {:induction false} LocalStepMatches(e: L.Engine, lives: seq<Life>, step: LocalStep, marks: seq<int>)
    requires EngineMatches(e, lives) && (step.Use? ==> LauncherOp(step.op))
    ensures StepMatches(lives, LocalEffect(e, step, marks))
  {
    hide L.Start, L.Extend, L.End, L.Tick, L.Recover, L.Bind;
    match step
    case Reboot(now) => RebootMatches(e, lives, now);
    case Use(op) =>
      match op
      case StartOp(_, _, _, _, _) => StartMatches(e, lives, op);
      case ExtendOp(_, _) => ExtendMatches(e, lives, op);
      case EndOp(_, _) => EndMatches(e, lives, op);
      case TickOp(now) => TickMatches(e, lives, marks, now);
      case BindOp(k, bound) => BindMatches(e, lives, k, bound);
      case _ =>
  }

  /** The server takes the minutes of a start or an extension as asked exactly if they are 5 to
      1440. */
  lemma {:induction false} ClampIsExact(n: int, k: Option<nat>)
    ensures PlannedMinutes(Payload(k, Number(n), Missing)) == n <==> 5 <= n <= 1440
    ensures ExtensionMinutes(Payload(k, Missing, Number(n))) == n <==> 5 <= n <= 1440
  {
  }

  /** All starts and extensions ask for 5 to 1440 minutes. */
  predicate InRange(events: seq<SyncEvent>) {
    forall i :: 0 <= i < |events| ==>
      && (events[i].etype.SessionStarted? ==> events[i].payload.planned.Number? && ValidMinutes(events[i].payload.planned.n))
      && (events[i].etype.SessionExtended? ==> events[i].payload.minutes.Number? && ValidMinutes(events[i].payload.minutes.n))
  }

  lemma {:induction false} NoExcess(events: seq<SyncEvent>)
    requires InRange(events)
    ensures forall i :: 0 <= i < |Lives(events)| ==> Lives(events)[i].excess == 0
  {
    if |events| > 0 {
      var front, e := events[..|events| - 1], events[|events| - 1];
      NoExcess(front);
      assert events[|events| - 1] == e;
    }
  }

  /** The echo of an expiry that was set outright carries no minutes, so the server reads it as an
      extension by the smallest number of minutes: both sides move alike exactly if the expiry
      moved by that much. */
  lemma {:induction false} SetExpiryEchoIsFiveMinutes(e: L.Engine, expires: int)
    requires L.LastOpen(e.rows) && L.HasOpen(e.rows) && e.rows[|e.rows| - 1].expires != expires
    ensures |L.SetExpires(e, expires, false).engine.rows| == |e.rows|
    ensures var x := L.SetExpires(e, expires, false);
            var moved := x.engine.rows[|e.rows| - 1].expires - e.rows[|e.rows| - 1].expires;
            && !x.thrown && |x.emitted| == 1
            && x.emitted[0].etype.SessionExtended?
            && (moved == ExtensionMinutes(x.emitted[0].payload) * MINUTE_MS <==>
                expires == e.rows[|e.rows| - 1].expires + MIN_MINUTES * MINUTE_MS)
  {
    L.LoadActiveIsLast(e.rows);
  }

  // ---- The network -------------------------------------------------------------

  /** `log` is every event ever enqueued; `arrivals` tells how the server first processed a
      prefix of it. Enqueuing and applying a reply are not interrupted. The server also serves
      other PCs. */
  datatype Net = Net(
    pc: nat, engine: L.Engine, log: seq<SyncEvent>, store: Store,
    awaiting: Option<Request>, serving: set<Serving>, server: Server, arrivals: seq<Arrival>)

  /** A new agent; the server may know any other PCs. */
  function Begin(pc: nat, server: Server): Net {
    Net(pc, L.Engine([], L.NoSession, None, {}, false), [], Store(0, 0, []), None, {}, server, [])
  }

  ghost predicate NewTo(server: Server, pc: nat) {
    Own(server.sessions, pc) == [] && forall id :: id in server.offline ==> server.offline[id].pc != pc
  }

  datatype NetStep =
    | Local(step: LocalStep, marks: seq<int>, id: nat, at: int)
    | Note(etype: EventType, payload: Payload, id: nat, at: int)
    | Upload
    | ServeNext(sv: Serving, ctx: Context, now: int)
    | Hear(sv: Serving)
    | Lose
    | Elsewhere(after: Server)

  predicate NewId(n: Net, id: nat) {
    id !in n.server.offline && forall i :: 0 <= i < |n.log| ==> n.log[i].id != id
  }

  /** Anything that leaves this PC's part of the server alone and takes none of its event ids. */
  ghost predicate LeavesAlone(n: Net, after: Server) {
    && LooksLike(after, n.server, n.pc)
    && forall i :: 0 <= i < |n.log| && n.log[i].id in after.offline ==> n.log[i].id in n.server.offline
  }

  ghost predicate Possible(n: Net, st: NetStep) {
    match st
    case Local(step, _, id, _) => (step.Use? ==> LauncherOp(step.op)) && NewId(n, id)
    case Note(etype, _, id, _) => !etype.IsSession() && NewId(n, id)
    case Upload => n.awaiting.None? && |PendingBatch(n.store, BATCH_SIZE)| > 0
    case ServeNext(sv, ctx, _) => sv in n.serving && |sv.done| < |sv.req.events| && ctx.pc == n.pc
    case Hear(sv) => sv in n.serving && |sv.done| == |sv.req.events| && n.awaiting == Some(sv.req)
    case Lose => n.awaiting.Some?
    case Elsewhere(after) => LeavesAlone(n, after)
  }

  function Enqueue(n: Net, etype: EventType, payload: Payload, id: nat, at: int): Net {
    var evt := SyncEvent(id, n.store.counter + 1, etype, at, payload);
    n.(log := n.log + [evt], store := InsertRow(n.store.(counter := n.store.counter + 1), evt))
  }

  ghost function Go(n: Net, st: NetStep): Net
    requires Possible(n, st)
  {
    match st
    case Local(step, marks, id, at) =>
      var x := LocalEffect(n.engine, step, marks);
      var n1 := n.(engine := x.engine);
      if |x.emitted| == 0 then n1 else Enqueue(n1, x.emitted[0].etype, x.emitted[0].payload, id, at)
    case Note(etype, payload, id, at) => Enqueue(n, etype, payload, id, at)
    case Upload =>
      var req := Request(n.store.cursor, PendingBatch(n.store, BATCH_SIZE));
      n.(awaiting := Some(req), serving := n.serving + {Serving(req, [])})
    case ServeNext(sv, ctx, now) =>
      var e := sv.req.events[|sv.done|];
      var a := Process(n.server, e, ctx, now);
      n.(serving := n.serving + {sv.(done := sv.done + [a.result])}, server := a.server,
         arrivals := if Known(n.server.offline, n.pc, e) then n.arrivals else n.arrivals + [Arrival(ctx, now)])
    case Hear(sv) =>
      var ack := MaxOf(ComputeAckSeq(sv.req.last, sv.done), Advance(sv.req.last, sv.done));
      n.(awaiting := None, store := ApplyBatch(n.store, sv.done, ack))
    case Lose => n.(awaiting := None)
    case Elsewhere(after) => n.(server := after)
  }

  ghost predicate CanGo(n: Net, steps: seq<NetStep>)
    decreases |steps|
  {
    |steps| == 0 || (Possible(n, steps[0]) && CanGo(Go(n, steps[0]), steps[1..]))
  }

  ghost function GoAll(n: Net, steps: seq<NetStep>): Net
    requires CanGo(n, steps)
    decreases |steps|
  {
    if |steps| == 0 then n else GoAll(Go(n, steps[0]), steps[1..])
  }

  // ---- Invariant ---------------------------------------------------------------

  /** The outbox holds, pending, exactly the log after the cursor. */
  ghost predicate StoreFits(n: Net) {
    && Dense(n.store) && UniqueIds(n.store.rows)
    && n.store.counter == |n.log| && n.store.cursor <= |n.log|
    && PendingEvents(n.store.rows) == n.log[n.store.cursor..]
    && forall i :: 0 <= i < |n.store.rows| ==> n.store.rows[i].evt in n.log
  }

  /** To this PC the server looks as if it had read a prefix of the log in order, and nothing
      else; it has not seen the rest. */
  ghost predicate ServerFits(n: Net) {
    && n.store.cursor <= |n.arrivals| <= |n.log| && From(n.arrivals, n.pc)
    && LooksLike(n.server, ServeLog(n.log[..|n.arrivals|], n.arrivals), n.pc)
    && forall i :: |n.arrivals| <= i < |n.log| ==> n.log[i].id !in n.server.offline
  }

  /** A copy of a request is a stretch of the log, and starts no later than the first event
      that the server has not seen. */
  ghost predicate CopyFits(n: Net, sv: Serving) {
    && 0 <= sv.req.last && |sv.done| <= |sv.req.events|
    && sv.req.last + |sv.req.events| <= |n.log|
    && sv.req.events == n.log[sv.req.last..sv.req.last + |sv.req.events|]
    && sv.req.last + |sv.done| <= |n.arrivals|
    && Answers(sv.done, sv.req.events[..|sv.done|])
  }

  ghost predicate NetInv(n: Net) {
    && Enumerated(n.log) && Orderly(n.log) && EngineMatches(n.engine, Lives(n.log))
    && StoreFits(n) && ServerFits(n)
    && (forall sv :: sv in n.serving ==> CopyFits(n, sv))
    && (n.awaiting.Some? ==> n.awaiting.value.last == n.store.cursor)
  }

  lemma {:induction false} EnqueueFitsStore(n: Net, e: SyncEvent)
    requires StoreFits(n) && NewId(n, e.id) && e.seqNo == n.store.counter + 1
    ensures StoreFits(n.(log := n.log + [e], store := InsertRow(n.store.(counter := n.store.counter + 1), e)))
  {
    hide Dense, UniqueIds, PendingEvents;
    forall row | row in n.store.rows
      ensures row.evt.id != e.id
    {
      var i :| 0 <= i < |n.store.rows| && n.store.rows[i] == row;
      assert n.store.rows[i].evt in n.log;
    }
    EnqueueKeepsDense(n.store, e);
    CursorNotNegative(n.store);
    assert (n.log + [e])[n.store.cursor..] == n.log[n.store.cursor..] + [e];
  }

  lemma {:induction false} CursorNotNegative(o: Store)
    requires Dense(o)
    ensures 0 <= o.cursor
  {
  }

  /** A longer log keeps what is known about its prefix. */
  lemma {:induction false} LongerLogFits(n: Net, t: Net)
    requires ServerFits(n) && forall sv :: sv in n.serving ==> CopyFits(n, sv)
    requires |n.log| <= |t.log| && t.log[..|n.log|] == n.log
    requires forall i :: |n.log| <= i < |t.log| ==> t.log[i].id !in n.server.offline
    requires t.pc == n.pc && t.server == n.server && t.arrivals == n.arrivals && t.serving == n.serving
    requires t.store.cursor == n.store.cursor
    ensures ServerFits(t) && forall sv :: sv in t.serving ==> CopyFits(t, sv)
  {
    hide ServeLog, Answers, LooksLike;
    assert t.log[..|n.arrivals|] == n.log[..|n.arrivals|];
    assert forall i :: 0 <= i < |n.log| ==> t.log[i] == n.log[i];
    forall sv | sv in t.serving
      ensures CopyFits(t, sv)
    {
      assert CopyFits(n, sv);
    }
  }

  lemma {:induction false} EnqueueFitsLog(log: seq<SyncEvent>, e: SyncEvent, engine: L.Engine)
    requires Enumerated(log) && Orderly(log) && e.seqNo == |log| + 1
    requires forall i :: 0 <= i < |log| ==> log[i].id != e.id
    requires Fits(Lives(log), e) && EngineMatches(engine, LifeStep(Lives(log), e))
    ensures Enumerated(log + [e]) && Orderly(log + [e]) && EngineMatches(engine, Lives(log + [e]))
  {
    hide EngineMatches, LifeStep, Fits;
    LivesAppend(log, e);
  }

  lemma {:induction false} EnqueueFitsServer(n: Net, t: Net, e: SyncEvent)
    requires ServerFits(n) && forall sv :: sv in n.serving ==> CopyFits(n, sv)
    requires NewId(n, e.id) && t.log == n.log + [e]
    requires t.pc == n.pc && t.server == n.server && t.arrivals == n.arrivals && t.serving == n.serving
    requires t.store.cursor == n.store.cursor
    ensures ServerFits(t) && forall sv :: sv in t.serving ==> CopyFits(t, sv)
  {
    hide ServerFits, CopyFits;
    assert t.log[..|n.log|] == n.log;
    LongerLogFits(n, t);
  }

  lemma {:induction false} EnqueueFits(n: Net, engine: L.Engine, etype: EventType, payload: Payload, id: nat, at: int)
    requires NetInv(n) && NewId(n, id)
    requires var e := SyncEvent(id, n.store.counter + 1, etype, at, payload);
             Fits(Lives(n.log), e) && EngineMatches(engine, LifeStep(Lives(n.log), e))
    ensures NetInv(Enqueue(n.(engine := engine), etype, payload, id, at))
  {
    hide EngineMatches, LifeStep, Fits, Dense, UniqueIds, PendingEvents, ServerFits, CopyFits, Lives, Orderly, Enumerated;
    var e := SyncEvent(id, n.store.counter + 1, etype, at, payload);
    var t := Enqueue(n.(engine := engine), etype, payload, id, at);
    EnqueueFitsLog(n.log, e, engine);
    EnqueueFitsStore(n, e);
    EnqueueFitsServer(n, t, e);
  }

  lemma {:induction false} LocalFits(n: Net, st: NetStep)
    requires NetInv(n) && Possible(n, st) && (st.Local? || st.Note?)
    ensures NetInv(Go(n, st))
  {
    if st.Note? {
      NoteKeepsLives(Lives(n.log), SyncEvent(st.id, n.store.counter + 1, st.etype, st.at, st.payload));
      EnqueueFits(n, n.engine, st.etype, st.payload, st.id, st.at);
    } else {
      LocalStepMatches(n.engine, Lives(n.log), st.step, st.marks);
      var x := LocalEffect(n.engine, st.step, st.marks);
      if |x.emitted| == 0 {
        QuietFits(n, x.engine);
      } else {
        var m := x.emitted[0];
        var e := SyncEvent(st.id, n.store.counter + 1, m.etype, st.at, m.payload);
        LivesIgnoreNumbers(Lives(n.log), e, SyncEvent(0, 0, m.etype, 0, m.payload));
        EnqueueFits(n, x.engine, m.etype, m.payload, st.id, st.at);
      }
    }
  }

  lemma {:induction false} QuietFits(n: Net, engine: L.Engine)
    requires NetInv(n) && EngineMatches(engine, Lives(n.log))
    ensures NetInv(n.(engine := engine))
  {
    var t := n.(engine := engine);
    forall sv | sv in t.serving
      ensures CopyFits(t, sv)
    {
      assert CopyFits(n, sv);
    }
  }

  lemma {:induction false} NoteKeepsLives(lives: seq<Life>, e: SyncEvent)
    requires !e.etype.IsSession()
    ensures LifeStep(lives, e) == lives && Fits(lives, e)
  {
  }

  lemma {:induction false} LivesIgnoreNumbers(lives: seq<Life>, a: SyncEvent, b: SyncEvent)
    requires a.etype == b.etype && a.payload == b.payload
    ensures LifeStep(lives, a) == LifeStep(lives, b) && (Fits(lives, a) <==> Fits(lives, b))
  {
  }

  lemma {:induction false} UploadFits(n: Net, st: NetStep)
    requires NetInv(n) && Possible(n, st) && st.Upload?
    ensures NetInv(Go(n, st))
  {
    hide Process, Lives, EngineMatches, PendingEvents;
    var t := Go(n, st);
    DenseBatch(n.store, BATCH_SIZE);
    var batch := PendingBatch(n.store, BATCH_SIZE);
    var c := n.store.cursor;
    assert batch == n.log[c..c + |batch|];
    forall sv | sv in t.serving
      ensures CopyFits(t, sv)
    {
      if sv in n.serving {
        assert CopyFits(n, sv);
      } else {
        assert sv.req.events[..0] == [];
      }
    }
  }

  /** An event that the server has seen changes nothing. */
  lemma {:induction false} ServeSeen(n: Net, j: nat, ctx: Context, now: int)
    requires ServerFits(n) && Enumerated(n.log) && ctx.pc == n.pc && j < |n.arrivals|
    ensures n.log[j].id in n.server.offline && n.server.offline[n.log[j].id].pc == n.pc
    ensures Known(n.server.offline, n.pc, n.log[j]) && Process(n.server, n.log[j], ctx, now).server == n.server
  {
    hide Process, RecordsExactly, Enumerated, ServeLog, Own;
    var k := |n.arrivals|;
    var ideal := ServeLog(n.log[..k], n.arrivals);
    EnumeratedPrefix(n.log, k);
    ServeLogRecords(n.log[..k], n.arrivals, n.pc);
    assert n.log[..k][j] == n.log[j];
    SeenIsRecorded(ideal.offline, n.log[..k], j);
    ServeLogIsOurs(n.log[..k], n.arrivals, n.pc);
    assert SameRow(n.server.offline[n.log[j].id], ideal.offline[n.log[j].id]);
    KnownIsNoOp(n.server, n.log[j], ctx, now);
  }

  /** The first event that the server has not seen is new to it. */
  lemma {:induction false} ServeUnseen(n: Net, ctx: Context, now: int)
    requires ServerFits(n) && Enumerated(n.log) && ctx.pc == n.pc && |n.arrivals| < |n.log|
    ensures var k := |n.arrivals|;
            && !Known(n.server.offline, n.pc, n.log[k])
            && LooksLike(Process(n.server, n.log[k], ctx, now).server,
                         ServeLog(n.log[..k + 1], n.arrivals + [Arrival(ctx, now)]), n.pc)
  {
    hide Process, Known, RecordsExactly, Enumerated, ServeLog, LooksLike;
    var k := |n.arrivals|;
    var ideal, e := ServeLog(n.log[..k], n.arrivals), n.log[k];
    EnumeratedPrefix(n.log, k);
    ServeLogRecords(n.log[..k], n.arrivals, n.pc);
    ServeLogIsOurs(n.log[..k], n.arrivals, n.pc);
    assert n.log[..k] + [e] == n.log[..k + 1];
    EnumeratedPrefix(n.log, k + 1);
    UnseenIsUnknown(ideal.offline, n.log[..k], e, n.pc);
    KnownByLooks(n.server, ideal, n.pc, e);
    ProcessByLooks(n.server, ideal, e, ctx, now);
    ServeLogAppend(n.log[..k], n.arrivals, e, Arrival(ctx, now));
  }

  lemma {:induction false} ServeLogIsOurs(events: seq<SyncEvent>, arrivals: seq<Arrival>, pc: nat)
    requires |arrivals| == |events| && From(arrivals, pc)
    ensures forall id :: id in ServeLog(events, arrivals).offline ==> ServeLog(events, arrivals).offline[id].pc == pc
  {
    if |events| > 0 {
      var n := |events| - 1;
      ServeLogIsOurs(events[..n], arrivals[..n], pc);
      ProcessRecordsOurs(ServeLog(events[..n], arrivals[..n]), events[n], arrivals[n].ctx, arrivals[n].now);
    }
  }

  lemma {:induction false} ProcessRecordsOurs(s: Server, e: SyncEvent, ctx: Context, now: int)
    requires forall id :: id in s.offline ==> s.offline[id].pc == ctx.pc
    ensures forall id :: id in Process(s, e, ctx, now).server.offline ==> Process(s, e, ctx, now).server.offline[id].pc == ctx.pc
  {
    hide Pricing.Price;
  }

  /** The events after the next one stay unseen. */
  lemma {:induction false} LaterStayUnseen(n: Net, j: nat, ctx: Context, now: int, i: nat)
    requires Enumerated(n.log) && j < i < |n.log| && n.log[i].id !in n.server.offline
    ensures n.log[i].id !in Process(n.server, n.log[j], ctx, now).server.offline
  {
    hide Process;
    ProcessRecords(n.server, n.log[j], ctx, now);
  }

  /** The next event of any copy is either known already or is the next one of the log. */
  lemma {:induction false} ServeFitsServer(n: Net, e: SyncEvent, j: nat, ctx: Context, now: int)
    requires ServerFits(n) && Enumerated(n.log) && ctx.pc == n.pc
    requires j < |n.log| && e == n.log[j] && j <= |n.arrivals|
    ensures var known := Known(n.server.offline, n.pc, e);
            var t := n.(server := Process(n.server, e, ctx, now).server,
                        arrivals := if known then n.arrivals else n.arrivals + [Arrival(ctx, now)]);
            ServerFits(t) && j < |t.arrivals| && |n.arrivals| <= |t.arrivals|
  {
    hide Process, Known, Enumerated, ServeLog, LooksLike;
    if j < |n.arrivals| {
      ServeSeen(n, j, ctx, now);
    } else {
      ServeUnseen(n, ctx, now);
      forall i | j < i < |n.log|
        ensures n.log[i].id !in Process(n.server, e, ctx, now).server.offline
      {
        LaterStayUnseen(n, j, ctx, now, i);
      }
    }
  }

  lemma {:induction false} ElsewhereFits(n: Net, st: NetStep)
    requires NetInv(n) && Possible(n, st) && st.Elsewhere?
    ensures NetInv(Go(n, st))
  {
    hide Lives, EngineMatches, Orderly, Dense, UniqueIds, PendingEvents, ServeLog, Answers, LooksLike, Enumerated;
    var t := Go(n, st);
    LooksLikeStill(t.server, n.server, ServeLog(n.log[..|n.arrivals|], n.arrivals), n.pc);
    forall sv | sv in t.serving
      ensures CopyFits(t, sv)
    {
      assert CopyFits(n, sv);
    }
  }

  /** Such steps are what staff and other agents do about other PCs. */
  lemma {:induction false} OthersArePossible(n: Net, d: Desk, act: Act)
    requires NetInv(n) && d.server == n.server && CanDo(d, act) && IsElsewhere(d, act, n.pc)
    requires act.Plain? && act.op.SyncOp? ==> NewOrKnown(n, act.op.evt.id)
    ensures Possible(n, Elsewhere(Execute(d, act).server))
  {
    ElsewhereLooksTheSame(d, act, n.pc);
    hide LooksLike, Process, NetInv, CanDo, IsElsewhere;
    if act.Plain? && act.op.SyncOp? {
      assert Execute(d, act).server == Process(n.server, act.op.evt, act.op.ctx, act.op.now).server;
      ProcessRecords(n.server, act.op.evt, act.op.ctx, act.op.now);
    } else {
      StaffKeepsRows(d, act);
    }
    hide Execute;
  }

  /** The id of another PC's event is not one of this PC's. */
  predicate NewOrKnown(n: Net, id: nat) {
    id in n.server.offline || forall i :: 0 <= i < |n.log| ==> n.log[i].id != id
  }

  lemma {:induction false} ServeFitsCopy(n: Net, t: Net, sv: Serving, r: SyncResult)
    requires CopyFits(n, sv) && |sv.done| < |sv.req.events|
    requires t.log == n.log && |n.arrivals| <= |t.arrivals| && sv.req.last + |sv.done| < |t.arrivals|
    requires Answers([r], [sv.req.events[|sv.done|]])
    ensures CopyFits(t, sv.(done := sv.done + [r]))
  {
    hide Answers;
    var e := sv.req.events[|sv.done|];
    AnswersAppend(sv.done, sv.req.events[..|sv.done|], r, e);
    assert sv.req.events[..|sv.done| + 1] == sv.req.events[..|sv.done|] + [e];
  }

  lemma {:induction false} ServeFits(n: Net, st: NetStep)
    requires NetInv(n) && Possible(n, st) && st.ServeNext?
    ensures NetInv(Go(n, st))
  {
    hide Process, Lives, EngineMatches, Known, PendingEvents, Dense, UniqueIds, Orderly, ServeLog, Answers;
    var t, sv := Go(n, st), st.sv;
    assert CopyFits(n, sv);
    var e := sv.req.events[|sv.done|];
    assert e == n.log[sv.req.last + |sv.done|];
    ServeFitsServer(n, e, sv.req.last + |sv.done|, st.ctx, st.now);
    ProcessAnswers(n.server, e, st.ctx, st.now);
    ServeFitsCopy(n, t, sv, Process(n.server, e, st.ctx, st.now).result);
    forall v | v in n.serving
      ensures CopyFits(t, v)
    {
      assert CopyFits(n, v);
    }
  }

  lemma {:induction false} SeenIsRecorded(offline: map<nat, OfflineRow>, events: seq<SyncEvent>, j: nat)
    requires RecordsExactly(offline, events) && j < |events|
    ensures events[j].id in offline
  {
  }

  lemma {:induction false} ReplyFitsStore(n: Net, sv: Serving)
    requires StoreFits(n) && CopyFits(n, sv) && |sv.done| == |sv.req.events| && sv.req.last == n.store.cursor
    ensures var ack := MaxOf(ComputeAckSeq(sv.req.last, sv.done), Advance(sv.req.last, sv.done));
            && StoreFits(n.(store := ApplyBatch(n.store, sv.done, ack)))
            && ApplyBatch(n.store, sv.done, ack).cursor == n.store.cursor + |sv.done|
  {
    hide ComputeAckSeq, Advance, ApplyBatch, PendingEvents, UniqueIds, Answers;
    var c, k := n.store.cursor, |sv.req.events|;
    assert sv.req.events[..k] == sv.req.events;
    var p := PendingEvents(n.store.rows);
    assert sv.req.events == p[..k];
    ConsecutiveAnswersAreAcked(sv.done, sv.req.events, c);
    AnswersNameEvents(sv.done, p, k);
    AnsweredBatchDrains(n.store, sv.done, k);
    assert p[k..] == n.log[c + k..];
    ReplyKeepsRows(n, sv.done, c + k);
  }

  lemma {:induction false} ReplyFits(n: Net, st: NetStep)
    requires NetInv(n) && Possible(n, st) && (st.Hear? || st.Lose?)
    ensures NetInv(Go(n, st))
  {
    hide Lives, EngineMatches, Orderly, ComputeAckSeq, Advance, ApplyBatch, Dense, UniqueIds, PendingEvents, ServeLog, Answers;
    var t := Go(n, st);
    if st.Hear? {
      assert CopyFits(n, st.sv);
      ReplyFitsStore(n, st.sv);
    }
    forall v | v in t.serving
      ensures CopyFits(t, v)
    {
      assert CopyFits(n, v);
    }
  }

  lemma {:induction false} ReplyKeepsRows(n: Net, rs: seq<SyncResult>, ack: int)
    requires forall i :: 0 <= i < |n.store.rows| ==> n.store.rows[i].evt in n.log
    ensures var rows := ApplyBatch(n.store, rs, ack).rows;
            forall i :: 0 <= i < |rows| ==> rows[i].evt in n.log
  {
    hide MarkAll;
    var marked := MarkAll(n.store.rows, rs);
    PruneKeeps(marked, ack);
    var rows := PruneRows(marked, ack);
    forall i | 0 <= i < |rows|
      ensures rows[i].evt in n.log
    {
      assert rows[i] in rows;
      var j :| 0 <= j < |marked| && marked[j] == rows[i];
      assert marked[j].evt == n.store.rows[j].evt;
    }
  }

  lemma {:induction false} GoKeepsInv(n: Net, st: NetStep)
    requires NetInv(n) && Possible(n, st)
    ensures NetInv(Go(n, st))
  {
    hide NetInv, Possible, Go;
    match st
    case Local(_, _, _, _) => LocalFits(n, st);
    case Note(_, _, _, _) => LocalFits(n, st);
    case Upload => UploadFits(n, st);
    case ServeNext(_, _, _) => ServeFits(n, st);
    case Hear(_) => ReplyFits(n, st);
    case Lose => ReplyFits(n, st);
    case Elsewhere(_) => ElsewhereFits(n, st);
  }

  lemma {:induction false} GoKeepsPc(n: Net, st: NetStep)
    requires Possible(n, st)
    ensures Go(n, st).pc == n.pc
  {
    hide Process, LocalEffect;
  }

  lemma {:induction false} BeginFits(pc: nat, server: Server)
    requires NewTo(server, pc)
    ensures NetInv(Begin(pc, server))
  {
    hide LooksLike, Own;
    BeginLooksLike(pc, server);
    assert Begin(pc, server).log[..0] == [];
  }

  lemma {:induction false} BeginLooksLike(pc: nat, server: Server)
    requires NewTo(server, pc)
    ensures LooksLike(server, ServeLog([], []), pc)
  {
  }

  lemma {:induction false} NetInvHolds(n: Net, steps: seq<NetStep>)
    requires NetInv(n) && CanGo(n, steps)
    ensures NetInv(GoAll(n, steps)) && GoAll(n, steps).pc == n.pc
    decreases |steps|
  {
    hide NetInv, Possible, Go;
    if |steps| > 0 {
      GoKeepsPc(n, steps[0]);
      GoKeepsInv(n, steps[0]);
      NetInvHolds(Go(n, steps[0]), steps[1..]);
    }
  }

  // ---- Convergence -------------------------------------------------------------

  /** Lost, late, repeated and interleaved uploads refine one reader that processes the log once,
      in order: to this PC the server looks as if only that had happened. */
  lemma {:induction false} UploadsRefineInOrderReading(pc: nat, server: Server, steps: seq<NetStep>)
    requires NewTo(server, pc) && CanGo(Begin(pc, server), steps)
    ensures var n := GoAll(Begin(pc, server), steps);
            && 0 <= n.store.cursor <= |n.arrivals| <= |n.log|
            && LooksLike(n.server, ServeLog(n.log[..|n.arrivals|], n.arrivals), pc)
            && PendingEvents(n.store.rows) == n.log[n.store.cursor..]
  {
    hide Possible, Go, Process;
    BeginFits(pc, server);
    NetInvHolds(Begin(pc, server), steps);
  }

  // ---- How the local sessions ended --------------------------------------------

  /** How a session came to its local end: it was ended or cancelled, or its time ran out. */
  datatype Fate = Ongoing | Finished | CalledOff | RanOut

  function ExpectedOnServer(fate: Fate): Status {
    match fate
    case Ongoing => Active
    case CalledOff => Cancelled
    case Finished => Ended
    case RanOut => Ended
  }

  function ExpectedLocally(fate: Fate): L.LocalStatus {
    match fate
    case Ongoing => L.Open
    case CalledOff => L.Closed
    case Finished => L.Closed
    case RanOut => L.Lapsed
  }

  function WithLast(fates: seq<Fate>, fate: Fate): seq<Fate> {
    if |fates| == 0 then fates else fates[|fates| - 1 := fate]
  }

  /** The fates after a step, told from the calls, the clock and the expiry alone. */
  function FateStep(fates: seq<Fate>, e: L.Engine, step: LocalStep): seq<Fate> {
    var open := L.OpenRow(e.rows);
    match step
    case Use(StartOp(_, _, _, _, _)) => if open.None? then fates + [Ongoing] else fates
    case Use(EndOp(cancelled, _)) =>
      if open.None? then fates else WithLast(fates, if cancelled then CalledOff else Finished)
    case Use(TickOp(now)) => if open.Some? && !e.paused && open.value.expires - now < 1000 then WithLast(fates, RanOut) else fates
    case Reboot(now) => if open.Some? && open.value.expires <= now then WithLast(fates, RanOut) else fates
    case _ => fates
  }

  ghost function FatesAll(fates: seq<Fate>, n: Net, steps: seq<NetStep>): seq<Fate>
    requires CanGo(n, steps)
    decreases |steps|
  {
    if |steps| == 0 then fates
    else FatesAll(if steps[0].Local? then FateStep(fates, n.engine, steps[0].step) else fates, Go(n, steps[0]), steps[1..])
  }

  ghost predicate FatesFit(fates: seq<Fate>, rows: seq<L.LocalRow>, lives: seq<Life>) {
    && |fates| == |rows| == |lives|
    && forall i :: 0 <= i < |fates| ==>
         rows[i].status == ExpectedLocally(fates[i]) && ExpectedStatus(lives[i]) == ExpectedOnServer(fates[i])
  }

  /** A call, a tick or a reboot lets local row, events and fate end alike. */
  lemma {:induction false} FateStepFits(fates: seq<Fate>, e: L.Engine, lives: seq<Life>, step: LocalStep, marks: seq<int>)
    requires EngineMatches(e, lives) && FatesFit(fates, e.rows, lives) && (step.Use? ==> LauncherOp(step.op))
    ensures var x := LocalEffect(e, step, marks);
            FatesFit(FateStep(fates, e, step), x.engine.rows, LivesAfter(lives, x.emitted))
  {
    hide L.Start, L.Extend, L.End, L.Tick, L.Agrees, RowMatches, PlannedMinutes, ExtensionMinutes;
    match step
    case Reboot(now) => L.LoadActiveIsLast(e.rows);
    case Use(op) =>
      match op
      case StartOp(_, _, _, _, _) => L.CallOutcome(e, op, marks);
      case ExtendOp(_, _) => L.CallOutcome(e, op, marks);
      case EndOp(_, _) => L.CallOutcome(e, op, marks);
      case TickOp(now) => L.TickOutcome(e, marks, now);
      case _ =>
  }

  lemma {:induction false} GoFitsFates(fates: seq<Fate>, n: Net, st: NetStep)
    requires NetInv(n) && Possible(n, st) && FatesFit(fates, n.engine.rows, Lives(n.log))
    ensures FatesFit(if st.Local? then FateStep(fates, n.engine, st.step) else fates, Go(n, st).engine.rows, Lives(Go(n, st).log))
  {
    hide Process, LocalEffect, FateStep, FatesFit, Lives, LifeStep, Orderly;
    match st
    case Local(step, marks, id, at) =>
      FateStepFits(fates, n.engine, Lives(n.log), step, marks);
      LocalStepMatches(n.engine, Lives(n.log), step, marks);
      var x := LocalEffect(n.engine, step, marks);
      if |x.emitted| == 1 {
        var m := x.emitted[0];
        var e := SyncEvent(id, n.store.counter + 1, m.etype, at, m.payload);
        LivesAppend(n.log, e);
        LivesIgnoreNumbers(Lives(n.log), e, SyncEvent(0, 0, m.etype, 0, m.payload));
      }
    case Note(etype, payload, id, at) =>
      var e := SyncEvent(id, n.store.counter + 1, etype, at, payload);
      LivesAppend(n.log, e);
      NoteKeepsLives(Lives(n.log), e);
    case _ =>
  }

  lemma {:induction false} FatesHold(fates: seq<Fate>, n: Net, steps: seq<NetStep>)
    requires NetInv(n) && CanGo(n, steps) && FatesFit(fates, n.engine.rows, Lives(n.log))
    ensures FatesFit(FatesAll(fates, n, steps), GoAll(n, steps).engine.rows, Lives(GoAll(n, steps).log))
    decreases |steps|
  {
    hide NetInv, Possible, Go, FateStep, FatesFit, Lives;
    if |steps| > 0 {
      GoKeepsInv(n, steps[0]);
      GoFitsFates(fates, n, steps[0]);
      FatesHold(if steps[0].Local? then FateStep(fates, n.engine, steps[0].step) else fates, Go(n, steps[0]), steps[1..]);
    }
  }

  // ---- The drained server ------------------------------------------------------

  lemma {:induction false} FollowsOwn(sessions: seq<Session>, lives: seq<Life>, onTime: seq<bool>, pc: nat)
    requires Follows(sessions, lives, onTime, pc)
    ensures Own(sessions, pc) == sessions
  {
    AllOwn(sessions, pc);
  }

  lemma {:induction false} NoneOwn(pc: nat)
    ensures Own([], pc) == []
  {
  }

  lemma {:induction false} AllOwn(sessions: seq<Session>, pc: nat)
    requires forall i :: 0 <= i < |sessions| ==> sessions[i].pc == pc
    ensures Own(sessions, pc) == sessions
  {
    hide Own;
    if |sessions| == 0 {
      NoneOwn(pc);
    } else {
      var front, last := sessions[..|sessions| - 1], sessions[|sessions| - 1];
      assert front + [last] == sessions;
      AllOwn(front, pc);
      OwnAppend(front, last, pc);
    }
  }

  /** What the drained server owes to local session i. */
  predicate Agreed(s: Session, row: L.LocalRow, life: Life, fate: Fate, timely: bool) {
    && row.status == ExpectedLocally(fate)
    && (timely ==> s.status == ExpectedOnServer(fate))
    && (timely ==> (s.planned + s.extended) * MINUTE_MS == row.expires - row.started + life.excess * MINUTE_MS)
    && (!timely ==> s.status.Expired? && s.extended == 0)
  }

  /** An in-order reader of the whole log agrees with the agent. */
  lemma {:induction false} ReaderAgrees(log: seq<SyncEvent>, arrivals: seq<Arrival>, engine: L.Engine, fates: seq<Fate>, pc: nat)
    requires |arrivals| == |log| && Enumerated(log) && Orderly(log) && From(arrivals, pc)
    requires EngineMatches(engine, Lives(log)) && FatesFit(fates, engine.rows, Lives(log))
    ensures var sessions, onTime := ServeLog(log, arrivals).sessions, OnTime(log, arrivals);
            && Own(sessions, pc) == sessions
            && |sessions| == |engine.rows| == |onTime| == |Lives(log)| == |fates|
            && forall i :: 0 <= i < |onTime| ==> Agreed(sessions[i], engine.rows[i], Lives(log)[i], fates[i], onTime[i])
  {
    hide ServeLog, Own, Lives, OnTime, Orderly, Enumerated;
    ServerFollows(log, arrivals, pc);
    var sessions, lives, onTime := ServeLog(log, arrivals).sessions, Lives(log), OnTime(log, arrivals);
    FollowsOwn(sessions, lives, onTime, pc);
    forall i | 0 <= i < |onTime|
      ensures Agreed(sessions[i], engine.rows[i], lives[i], fates[i], onTime[i])
    {
      assert RowFollows(sessions[i], lives[i], onTime[i], pc);
      assert RowMatches(engine.rows[i], lives[i]);
    }
  }

  lemma {:induction false} DrainedIsAllRead(n: Net)
    requires NetInv(n) && PendingEvents(n.store.rows) == []
    ensures |n.arrivals| == |n.log| && From(n.arrivals, n.pc)
    ensures Enumerated(n.log) && Orderly(n.log) && EngineMatches(n.engine, Lives(n.log))
    ensures Own(n.server.sessions, n.pc) == Own(ServeLog(n.log, n.arrivals).sessions, n.pc)
  {
    hide Enumerated, Orderly, EngineMatches, Lives, ServeLog, Own, CopyFits;
    assert |n.log[n.store.cursor..]| == 0;
    assert n.log[..|n.log|] == n.log;
  }

  lemma {:induction false} NoFates(pc: nat, server: Server)
    ensures FatesFit([], Begin(pc, server).engine.rows, Lives(Begin(pc, server).log))
  {
  }

  /** Once the outbox is drained, the server holds exactly one session of this PC for each local
      session, in the same order. A session whose start arrived in time is active exactly if the
      local one is open, cancelled exactly if that was cancelled, and otherwise ended, be it by a call
      or because its time ran out; it has the local minutes and whatever the clamping added to them.
      One whose start came too late is expired, without extensions. */
  lemma {:induction false} DrainedServerAgrees(pc: nat, server: Server, steps: seq<NetStep>)
    requires NewTo(server, pc) && CanGo(Begin(pc, server), steps)
    requires PendingEvents(GoAll(Begin(pc, server), steps).store.rows) == []
    ensures var n := GoAll(Begin(pc, server), steps);
            && |n.arrivals| == |n.log|
            && var own, onTime, fates := Own(n.server.sessions, pc), OnTime(n.log, n.arrivals), FatesAll([], Begin(pc, server), steps);
               && |own| == |n.engine.rows| == |onTime| == |Lives(n.log)| == |fates|
               && forall i :: 0 <= i < |onTime| ==> Agreed(own[i], n.engine.rows[i], Lives(n.log)[i], fates[i], onTime[i])
  {
    hide FatesAll, CanGo, GoAll, NetInv, Own, Lives, OnTime, Agreed, Enumerated, Orderly, EngineMatches, ServeLog, From, PendingEvents;
    BeginFits(pc, server);
    NetInvHolds(Begin(pc, server), steps);
    var n := GoAll(Begin(pc, server), steps);
    DrainedIsAllRead(n);
    NoFates(pc, server);
    FatesHold([], Begin(pc, server), steps);
    ReaderAgrees(n.log, n.arrivals, n.engine, FatesAll([], Begin(pc, server), steps), pc);
  }

  /** The minutes of a timely session are the same on both sides if and only if the clamping has
      added nothing to it, as when all its minutes were between 5 and 1440. */
  lemma {:induction false} MinutesAgreeExactly(pc: nat, server: Server, steps: seq<NetStep>, i: nat)
    requires NewTo(server, pc) && CanGo(Begin(pc, server), steps)
    requires PendingEvents(GoAll(Begin(pc, server), steps).store.rows) == []
    requires i < |GoAll(Begin(pc, server), steps).engine.rows|
    ensures var n := GoAll(Begin(pc, server), steps);
            && |n.arrivals| == |n.log| && i < |OnTime(n.log, n.arrivals)| && i < |Own(n.server.sessions, pc)| && i < |Lives(n.log)|
            && (OnTime(n.log, n.arrivals)[i] ==>
                  var s, row := Own(n.server.sessions, pc)[i], n.engine.rows[i];
                  (s.planned + s.extended) * MINUTE_MS == row.expires - row.started <==> Lives(n.log)[i].excess == 0)
            && (InRange(n.log) ==> Lives(n.log)[i].excess == 0)
  {
    hide CanGo, GoAll, Own, Lives, OnTime, FatesAll;
    DrainedServerAgrees(pc, server, steps);
    var n := GoAll(Begin(pc, server), steps);
    assert Agreed(Own(n.server.sessions, pc)[i], n.engine.rows[i], Lives(n.log)[i],
                  FatesAll([], Begin(pc, server), steps)[i], OnTime(n.log, n.arrivals)[i]);
    if InRange(n.log) {
      NoExcess(n.log);
    }
  }
}
