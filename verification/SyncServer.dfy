/** How the server ingests one batch of offline events: conflict resolution, application in
    one transaction per event, and the reply. Times are the server clock's readings. */
module SyncServer {
  import opened Domain
  import opened Sorting
  import opened AckCursor
  import opened Pricing

  /** The device that sent the batch, with its PC's tier and the cafe's active rules. */
  datatype Context = Context(cafe: nat, pc: nat, tier: Option<nat>, rules: seq<Rule>)

  // ---- conflicts.ts ------------------------------------------------------------

  datatype Decision = AcceptStart | AcceptExtend | AcceptEnd | TreatAsDuplicate | Conflict(reason: Reason)

  function ResolveOfflineEvent(serverStatus: Option<Status>, etype: EventType): Decision {
    match etype
    case SessionStarted => if serverStatus == Some(Active) then Conflict(DuplicateSession) else AcceptStart
    case SessionExtended => if serverStatus == Some(Active) then AcceptExtend else Conflict(SessionAlreadyEnded)
    case SessionEnded => if serverStatus != Some(Active) then TreatAsDuplicate else AcceptEnd
    case SessionCancelled => if serverStatus != Some(Active) then TreatAsDuplicate else AcceptEnd
    case _ => TreatAsDuplicate
  }

  // ---- apply.ts: specification -------------------------------------------------

  function Clamp(n: int): int {
    if n < MIN_MINUTES then MIN_MINUTES else if n > MAX_MINUTES then MAX_MINUTES else n
  }

  function PlannedMinutes(p: Payload): int {
    Clamp(if p.planned.Number? && p.planned.n != 0 then p.planned.n else 60)
  }

  function ExtensionMinutes(p: Payload): int {
    var field := if p.minutes.Missing? then p.planned else p.minutes;
    Clamp(if field.Number? then field.n else 0)
  }

  predicate IsActiveOn(row: Session, pc: nat) {
    row.pc == pc && row.status == Active
  }

  /** `k` is an active session of the PC that started no earlier than any other one. */
  ghost predicate IsLatestActive(sessions: seq<Session>, pc: nat, k: Option<nat>) {
    match k
    case None => forall i :: 0 <= i < |sessions| ==> !IsActiveOn(sessions[i], pc)
    case Some(k) =>
      && k < |sessions| && IsActiveOn(sessions[k], pc)
      && forall i :: 0 <= i < |sessions| && IsActiveOn(sessions[i], pc) ==> sessions[i].startedAt <= sessions[k].startedAt
  }

  function LoadActiveSession(sessions: seq<Session>, pc: nat): (k: Option<nat>)
    ensures IsLatestActive(sessions, pc, k)
  {
    if |sessions| == 0 then None
    else
      var last := |sessions| - 1;
      var k := LoadActiveSession(sessions[..last], pc);
      if IsActiveOn(sessions[last], pc) && (k.None? || sessions[k.value].startedAt < sessions[last].startedAt)
      then Some(last)
      else k
  }

  function StartRow(evt: SyncEvent, ctx: Context, now: int): Session {
    var planned := PlannedMinutes(evt.payload);
    var due := evt.occurredAt + planned * MINUTE_MS;
    var price := Price(ctx.rules, evt.occurredAt, planned, ctx.tier);
    var row := Session(ctx.cafe, ctx.pc, evt.occurredAt, due, None, planned, 0, price.amount, price.breakdown,
                       Active, SuperadminOffline, None);
    if due <= now then row.(status := Expired, endedAt := Some(due), expiresAt := now) else row
  }

  function ApplyAcceptStart(s: Server, evt: SyncEvent, ctx: Context, now: int): Server {
    var row := StartRow(evt, ctx, now);
    s.(sessions := s.sessions + [row],
       log := s.log + [SessionEvent(|s.sessions|, Started(row.planned, None), evt.occurredAt)])
  }

  function ApplyAcceptExtend(s: Server, evt: SyncEvent, k: nat): Server
    requires k < |s.sessions|
  {
    var minutes := ExtensionMinutes(evt.payload);
    var row := s.sessions[k];
    s.(sessions := s.sessions[k := row.(expiresAt := row.expiresAt + minutes * MINUTE_MS,
                                        extended := row.extended + minutes)],
       log := s.log + [SessionEvent(k, Extension(minutes, None), evt.occurredAt)])
  }

  function ApplyAcceptEnd(s: Server, evt: SyncEvent, k: nat, now: int): Server
    requires k < |s.sessions|
  {
    var endedAt := if evt.occurredAt > now then now else evt.occurredAt;
    var cancelled := evt.etype.SessionCancelled?;
    s.(sessions := s.sessions[k := s.sessions[k].(status := if cancelled then Cancelled else Ended,
                                                  endedAt := Some(endedAt))],
       log := s.log + [SessionEvent(k, if cancelled then CancelOf else EndOf, endedAt)])
  }

  /** What one decision does: the new tables, the verdict and the session it concerns. */
  datatype Outcome = Outcome(server: Server, state: Verdict, session: Option<nat>)

  function ApplyOfflineDecision(s: Server, evt: SyncEvent, ctx: Context, active: Option<nat>, now: int,
                                decision: Decision): Outcome
    requires active.Some? ==> active.value < |s.sessions|
  {
    match decision
    case AcceptStart => Outcome(ApplyAcceptStart(s, evt, ctx, now), Accepted, Some(|s.sessions|))
    case AcceptExtend =>
      if active.None? then Outcome(s, Accepted, None)
      else Outcome(ApplyAcceptExtend(s, evt, active.value), Accepted, active)
    case AcceptEnd =>
      if active.None? then Outcome(s, Accepted, None)
      else Outcome(ApplyAcceptEnd(s, evt, active.value, now), Accepted, active)
    case TreatAsDuplicate => Outcome(s, Duplicate, None)
    case Conflict(_) => Outcome(s, Conflicted, None)
  }

  predicate SeqTaken(offline: map<nat, OfflineRow>, pc: nat, seqNo: nat) {
    exists id :: id in offline && offline[id].pc == pc && offline[id].seqNo == seqNo
  }

  /** The event's id, or its number on this PC, is already recorded. */
  predicate Known(offline: map<nat, OfflineRow>, pc: nat, evt: SyncEvent) {
    evt.id in offline || SeqTaken(offline, pc, evt.seqNo)
  }

  function RowOf(evt: SyncEvent, ctx: Context): OfflineRow {
    OfflineRow(ctx.cafe, ctx.pc, evt.seqNo, evt.etype, evt.occurredAt, evt.payload, Accepted, None, None)
  }

  function ReasonOf(d: Decision): Option<Reason> {
    if d.Conflict? then Some(d.reason) else None
  }

  function StatusOf(sessions: seq<Session>, k: Option<nat>): Option<Status>
    requires k.Some? ==> k.value < |sessions|
  {
    if k.None? then None else Some(sessions[k.value].status)
  }

  datatype Answer = Answer(server: Server, result: SyncResult)

  /** One event's transaction: record, resolve, apply, finalize. */
  function Process(s: Server, evt: SyncEvent, ctx: Context, now: int): Answer {
    if Known(s.offline, ctx.pc, evt) then Answer(s, SyncResult(evt.id, evt.seqNo, Duplicate, None, None))
    else
      var active := LoadActiveSession(s.sessions, ctx.pc);
      var decision := ResolveOfflineEvent(StatusOf(s.sessions, active), evt.etype);
      var out := ApplyOfflineDecision(s, evt, ctx, active, now, decision);
      var row := RowOf(evt, ctx).(state := out.state, reason := ReasonOf(decision), session := out.session);
      Answer(out.server.(offline := s.offline[evt.id := row]),
             SyncResult(evt.id, evt.seqNo, out.state, ReasonOf(decision), out.session))
  }

  // ---- apply.ts and handlers.ts: the transaction as it is executed -------------

  class CafeDatabase {
    var sessions: seq<Session>
    var log: seq<SessionEvent>
    var offline: map<nat, OfflineRow>

    constructor ()
      ensures View() == Server([], [], map[])
    {
      sessions, log, offline := [], [], map[];
    }

    function View(): Server
      reads this
    {
      Server(sessions, log, offline)
    }

    method InsertSession(row: Session) returns (id: nat)
      modifies this
      ensures View() == old(View()).(sessions := old(sessions) + [row]) && id == old(|sessions|)
    {
      id := |sessions|;
      sessions := sessions + [row];
    }

    method InsertSessionEvent(id: nat, what: Happening, at: int)
      modifies this
      ensures View() == old(View()).(log := old(log) + [SessionEvent(id, what, at)])
    {
      log := log + [SessionEvent(id, what, at)];
    }

    method RecordOfflineEvent(evt: SyncEvent, ctx: Context) returns (duplicate: Option<SyncResult>)
      modifies this
      ensures duplicate.Some? <==> Known(old(offline), ctx.pc, evt)
      ensures duplicate.Some? ==> View() == old(View()) && duplicate.value == SyncResult(evt.id, evt.seqNo, Duplicate, None, None)
      ensures duplicate.None? ==> View() == old(View()).(offline := old(offline)[evt.id := RowOf(evt, ctx)])
    {
      if evt.id in offline {
        return Some(SyncResult(evt.id, evt.seqNo, Duplicate, None, None));
      }
      if SeqTaken(offline, ctx.pc, evt.seqNo) {
        return Some(SyncResult(evt.id, evt.seqNo, Duplicate, None, None));
      }
      offline := offline[evt.id := RowOf(evt, ctx)];
      duplicate := None;
    }

    method AcceptStart(evt: SyncEvent, ctx: Context, now: int) returns (session: nat)
      modifies this
      ensures View() == ApplyAcceptStart(old(View()), evt, ctx, now) && session == old(|sessions|)
    {
      hide Price;
      var planned := PlannedMinutes(evt.payload);
      var expiresAt := evt.occurredAt + planned * MINUTE_MS;
      var status, endedAt := Active, None;
      if expiresAt <= now {
        status, endedAt := Expired, Some(expiresAt);
        expiresAt := now;
      }
      var price := ComputePrice(ctx.rules, evt.occurredAt, planned, ctx.tier);
      session := InsertSession(Session(ctx.cafe, ctx.pc, evt.occurredAt, expiresAt, endedAt, planned, 0,
                                       price.amount, price.breakdown, status, SuperadminOffline, None));
      InsertSessionEvent(session, Started(planned, None), evt.occurredAt);
    }

    method AcceptExtend(evt: SyncEvent, k: nat)
      requires k < |sessions|
      modifies this
      ensures View() == ApplyAcceptExtend(old(View()), evt, k)
    {
      var minutes := ExtensionMinutes(evt.payload);
      var active := sessions[k];
      var newExpires := active.expiresAt + minutes * MINUTE_MS;
      sessions := sessions[k := active.(expiresAt := newExpires, extended := active.extended + minutes)];
      InsertSessionEvent(k, Extension(minutes, None), evt.occurredAt);
    }

    method AcceptEnd(evt: SyncEvent, k: nat, now: int)
      requires k < |sessions|
      modifies this
      ensures View() == ApplyAcceptEnd(old(View()), evt, k, now)
    {
      var endedAt := if evt.occurredAt > now then now else evt.occurredAt;
      var status := if evt.etype.SessionCancelled? then Cancelled else Ended;
      sessions := sessions[k := sessions[k].(status := status, endedAt := Some(endedAt))];
      InsertSessionEvent(k, if status == Cancelled then CancelOf else EndOf, endedAt);
    }

    method ApplyDecision(evt: SyncEvent, ctx: Context, active: Option<nat>, now: int, decision: Decision)
      returns (state: Verdict, session: Option<nat>)
      requires active.Some? ==> active.value < |sessions|
      modifies this
      ensures Outcome(View(), state, session) == ApplyOfflineDecision(old(View()), evt, ctx, active, now, decision)
    {
      state := if decision.Conflict? then Conflicted else if decision.TreatAsDuplicate? then Duplicate else Accepted;
      session := None;
      if decision.AcceptStart? {
        var id := AcceptStart(evt, ctx, now);
        session := Some(id);
      } else if decision.AcceptExtend? && active.Some? {
        AcceptExtend(evt, active.value);
        session := active;
      } else if decision.AcceptEnd? && active.Some? {
        AcceptEnd(evt, active.value, now);
        session := active;
      }
    }

    method FinalizeOfflineEvent(evt: SyncEvent, state: Verdict, decision: Decision, session: Option<nat>)
      returns (result: SyncResult)
      requires evt.id in offline
      modifies this
      ensures View() == old(View()).(offline := old(offline)[evt.id := old(offline)[evt.id].(
                          state := state, reason := ReasonOf(decision), session := session)])
      ensures result == SyncResult(evt.id, evt.seqNo, state, ReasonOf(decision), session)
    {
      offline := offline[evt.id := offline[evt.id].(state := state, reason := ReasonOf(decision), session := session)];
      result := SyncResult(evt.id, evt.seqNo, state, ReasonOf(decision), session);
    }

    method ProcessSyncEvent(evt: SyncEvent, ctx: Context, now: int) returns (result: SyncResult)
      modifies this
      ensures Answer(View(), result) == Process(old(View()), evt, ctx, now)
    {
      var duplicate := RecordOfflineEvent(evt, ctx);
      if duplicate.Some? { return duplicate.value; }
      var active := LoadActiveSession(sessions, ctx.pc);
      var decision := ResolveOfflineEvent(StatusOf(sessions, active), evt.etype);
      ghost var before := View();
      var state, session := ApplyDecision(evt, ctx, active, now, decision);
      OutcomeIgnoresOffline(old(View()), before.offline, evt, ctx, active, now, decision);
      result := FinalizeOfflineEvent(evt, state, decision, session);
      assert offline == old(offline)[evt.id := offline[evt.id]];
    }

    method HandleSyncEvents(input: seq<SyncEvent>, lastServerSeq: int, ctx: Context, times: seq<int>)
      returns (results: seq<SyncResult>, ackSeq: int)
      requires |times| == |input|
      modifies this
      ensures Reply(View(), results, ackSeq) == Handle(old(View()), input, lastServerSeq, ctx, times)
    {
      var events := Sort(input, EventSeq);
      SortCorrect(input, EventSeq);
      results := [];
      for i := 0 to |events|
        invariant Progress(View(), results) == ProcessAll(old(View()), events[..i], ctx, times[..i])
      {
        var result := ProcessSyncEvent(events[i], ctx, times[i]);
        results := results + [result];
        assert events[..i + 1][..i] == events[..i] && times[..i + 1][..i] == times[..i];
      }
      assert events[..|events|] == events && times[..|events|] == times;
      ResultsFollowEvents(old(View()), events, ctx, times);
      AnswersSorted(results, events);
      SortOfSorted(results, ResultSeq);
      results := Sort(results, ResultSeq);
      ackSeq := ComputeAckSeq(lastServerSeq, results);
    }
  }

  lemma {:induction false} OutcomeIgnoresOffline(s: Server, offline: map<nat, OfflineRow>, evt: SyncEvent, ctx: Context,
                              active: Option<nat>, now: int, decision: Decision)
    requires active.Some? ==> active.value < |s.sessions|
    ensures var a := ApplyOfflineDecision(s, evt, ctx, active, now, decision);
            var b := ApplyOfflineDecision(s.(offline := offline), evt, ctx, active, now, decision);
            && b == a.(server := a.server.(offline := offline))
            && a.server.offline == s.offline
  {
  }

  // ---- A whole batch -----------------------------------------------------------

  datatype Progress = Progress(server: Server, results: seq<SyncResult>)

  /** Processes the events in list order, event i when the clock reads times[i]. */
  function ProcessAll(s: Server, events: seq<SyncEvent>, ctx: Context, times: seq<int>): Progress
    requires |times| == |events|
  {
    if |events| == 0 then Progress(s, [])
    else
      var last := |events| - 1;
      var p := ProcessAll(s, events[..last], ctx, times[..last]);
      var a := Process(p.server, events[last], ctx, times[last]);
      Progress(a.server, p.results + [a.result])
  }

  datatype Reply = Reply(server: Server, results: seq<SyncResult>, ack: int)

  function Handle(s: Server, input: seq<SyncEvent>, lastServerSeq: int, ctx: Context, times: seq<int>): Reply
    requires |times| == |input|
  {
    SortCorrect(input, EventSeq);
    var p := ProcessAll(s, Sort(input, EventSeq), ctx, times);
    Reply(p.server, p.results, ComputeAckSeq(lastServerSeq, p.results))
  }

  /** Result i answers event i with a terminal verdict. */
  ghost predicate Answers(results: seq<SyncResult>, events: seq<SyncEvent>) {
    && |results| == |events|
    && forall i :: 0 <= i < |events| ==>
         results[i].id == events[i].id && results[i].seqNo == events[i].seqNo && IsTerminal(results[i].state)
  }

  lemma {:induction false} ProcessAnswers(s: Server, evt: SyncEvent, ctx: Context, now: int)
    ensures Answers([Process(s, evt, ctx, now).result], [evt])
  {
  }

  lemma {:induction false} ResultsFollowEvents(s: Server, events: seq<SyncEvent>, ctx: Context, times: seq<int>)
    requires |times| == |events|
    ensures Answers(ProcessAll(s, events, ctx, times).results, events)
  {
    if |events| > 0 {
      var last := |events| - 1;
      ResultsFollowEvents(s, events[..last], ctx, times[..last]);
      var p := ProcessAll(s, events[..last], ctx, times[..last]);
      ProcessAnswers(p.server, events[last], ctx, times[last]);
      AnswersAppend(p.results, events[..last], Process(p.server, events[last], ctx, times[last]).result, events[last]);
      assert events[..last] + [events[last]] == events;
    }
  }

  lemma {:induction false} AnswersAppend(results: seq<SyncResult>, events: seq<SyncEvent>, r: SyncResult, e: SyncEvent)
    requires Answers(results, events) && Answers([r], [e])
    ensures Answers(results + [r], events + [e])
  {
    assert [r][0] == r && [e][0] == e;
  }

  lemma {:induction false} AnswersSorted(results: seq<SyncResult>, events: seq<SyncEvent>)
    requires Answers(results, events) && Sorted(events, EventSeq)
    ensures Sorted(results, ResultSeq)
  {
    forall i, j | 0 <= i < j < |results|
      ensures ResultSeq(results[i]) <= ResultSeq(results[j])
    {
      assert EventSeq(events[i]) <= EventSeq(events[j]);
    }
  }

  // ---- Replays, permutations and splits ----------------------------------------

  /** A transaction records its event, forgets nothing, and changes no other recorded row. */
  lemma {:induction false} ProcessRecords(s: Server, evt: SyncEvent, ctx: Context, now: int)
    ensures var t := Process(s, evt, ctx, now).server;
            && Known(t.offline, ctx.pc, evt)
            && (forall id :: id in s.offline ==> id in t.offline && t.offline[id] == s.offline[id])
            && (forall id :: id in t.offline ==> id in s.offline || id == evt.id)
  {
    var t := Process(s, evt, ctx, now).server;
    if !Known(s.offline, ctx.pc, evt) {
      assert evt.id in t.offline;
    }
  }

  lemma {:induction false} KnownStays(s: Server, evt: SyncEvent, pc: nat, other: SyncEvent, ctx: Context, now: int)
    requires Known(s.offline, pc, evt)
    ensures Known(Process(s, other, ctx, now).server.offline, pc, evt)
  {
    ProcessRecords(s, other, ctx, now);
    if evt.id !in s.offline {
      var id :| id in s.offline && s.offline[id].pc == pc && s.offline[id].seqNo == evt.seqNo;
      assert id in Process(s, other, ctx, now).server.offline;
    }
  }

  /** Replaying an event, at any later time and with any rules, changes nothing and is
      answered `duplicate`. */
  lemma {:induction false} ReplayIsNoOp(s: Server, evt: SyncEvent, ctx: Context, now: int, again: Context, later: int)
    requires again.pc == ctx.pc
    ensures var t := Process(s, evt, ctx, now).server;
            Process(t, evt, again, later) == Answer(t, SyncResult(evt.id, evt.seqNo, Duplicate, None, None))
  {
    ProcessRecords(s, evt, ctx, now);
  }

  /** The tables after processing `events` in order at one fixed server time. */
  function Tables(s: Server, events: seq<SyncEvent>, ctx: Context, now: int): Server {
    ProcessAll(s, events, ctx, Repeat(now, |events|)).server
  }

  lemma {:induction false} TablesStep(s: Server, events: seq<SyncEvent>, ctx: Context, now: int)
    requires |events| > 0
    ensures var last := |events| - 1;
            Tables(s, events, ctx, now) == Process(Tables(s, events[..last], ctx, now), events[last], ctx, now).server
  {
    assert Repeat(now, |events|)[..|events| - 1] == Repeat(now, |events| - 1);
  }

  /** Drops every event that repeats its predecessor. */
  function Distinct(events: seq<SyncEvent>): seq<SyncEvent> {
    var n := |events|;
    if n < 2 then events
    else if events[n - 1] == events[n - 2] then Distinct(events[..n - 1])
    else Distinct(events[..n - 1]) + [events[n - 1]]
  }

  ghost predicate SeqDetermines(events: seq<SyncEvent>) {
    forall x, y :: x in events && y in events && x.seqNo == y.seqNo ==> x == y
  }

  predicate StrictlyIncreasing(events: seq<SyncEvent>) {
    forall i, j :: 0 <= i < j < |events| ==> events[i].seqNo < events[j].seqNo
  }

  lemma {:induction false} DistinctMembers(events: seq<SyncEvent>)
    ensures forall e :: e in Distinct(events) <==> e in events
    ensures |events| > 0 ==> |Distinct(events)| > 0 && Distinct(events)[|Distinct(events)| - 1] == events[|events| - 1]
  {
    var n := |events|;
    if n >= 2 {
      DistinctMembers(events[..n - 1]);
      assert events == events[..n - 1] + [events[n - 1]];
    }
  }

  lemma {:induction false} DistinctIncreases(events: seq<SyncEvent>)
    requires Sorted(events, EventSeq) && SeqDetermines(events)
    ensures StrictlyIncreasing(Distinct(events))
  {
    var n := |events|;
    if n >= 2 {
      var front := events[..n - 1];
      DistinctIncreases(front);
      DistinctMembers(front);
      assert EventSeq(events[n - 2]) <= EventSeq(events[n - 1]);
      assert events[n - 2] in events && events[n - 1] in events;
      if events[n - 1] != events[n - 2] {
        IncreasingAppend(Distinct(front), events[n - 1]);
      }
    }
  }

  lemma {:induction false} IncreasingAppend(xs: seq<SyncEvent>, e: SyncEvent)
    requires StrictlyIncreasing(xs)
    requires |xs| > 0 ==> xs[|xs| - 1].seqNo < e.seqNo
    ensures StrictlyIncreasing(xs + [e])
  {
  }

  lemma {:induction false} TablesOfDistinct(s: Server, events: seq<SyncEvent>, ctx: Context, now: int)
    ensures Tables(s, events, ctx, now) == Tables(s, Distinct(events), ctx, now)
  {
    hide Process, Tables;
    var n := |events|;
    if n >= 2 {
      var front := events[..n - 1];
      TablesOfDistinct(s, front, ctx, now);
      TablesStep(s, events, ctx, now);
      if events[n - 1] == events[n - 2] {
        TablesStep(s, front, ctx, now);
        ReplayIsNoOp(Tables(s, front[..n - 2], ctx, now), events[n - 2], ctx, now, ctx, now);
      } else {
        var d := Distinct(events);
        assert d[..|d| - 1] == Distinct(front);
        TablesStep(s, d, ctx, now);
      }
    }
  }

  lemma {:induction false} LastsAgree(xs: seq<SyncEvent>, ys: seq<SyncEvent>)
    requires StrictlyIncreasing(xs) && StrictlyIncreasing(ys) && |xs| > 0 && |ys| > 0
    requires forall e :: e in xs <==> e in ys
    ensures xs[|xs| - 1] == ys[|ys| - 1]
  {
    assert xs[|xs| - 1] in ys && ys[|ys| - 1] in xs;
  }

  lemma {:induction false} IncreasingUnique(xs: seq<SyncEvent>, ys: seq<SyncEvent>)
    requires StrictlyIncreasing(xs) && StrictlyIncreasing(ys)
    requires forall e :: e in xs <==> e in ys
    ensures xs == ys
    decreases |xs|
  {
    hide StrictlyIncreasing;
    assert |xs| > 0 ==> xs[0] in ys;
    assert |ys| > 0 ==> ys[0] in xs;
    if |xs| > 0 {
      var m, n := |xs| - 1, |ys| - 1;
      LastsAgree(xs, ys);
      FrontMembers(xs, m);
      FrontMembers(ys, n);
      forall e
        ensures e in xs[..m] <==> e in ys[..n]
      {
        assert e in xs[..m] <==> e in xs && e != xs[m];
      }
      IncreasingUnique(xs[..m], ys[..n]);
      assert xs == xs[..m] + [xs[m]] && ys == ys[..n] + [ys[n]];
    }
  }

  lemma {:induction false} FrontMembers(xs: seq<SyncEvent>, m: nat)
    requires StrictlyIncreasing(xs) && |xs| == m + 1
    ensures StrictlyIncreasing(xs[..m])
    ensures forall e :: e in xs[..m] <==> e in xs && e != xs[m]
  {
    assert xs == xs[..m] + [xs[m]];
  }

  /** However a set of events is ordered and repeated inside one batch, the server ends with
      the same tables and the same ack. */
  lemma {:induction false} BatchConfluence(s: Server, xs: seq<SyncEvent>, ys: seq<SyncEvent>, last: int, ctx: Context, now: int)
    requires SeqDetermines(xs)
    requires forall e :: e in xs <==> e in ys
    ensures Handle(s, xs, last, ctx, Repeat(now, |xs|)).server == Handle(s, ys, last, ctx, Repeat(now, |ys|)).server
    ensures Handle(s, xs, last, ctx, Repeat(now, |xs|)).ack == Handle(s, ys, last, ctx, Repeat(now, |ys|)).ack
  {
    hide Process;
    var a, b := Sort(xs, EventSeq), Sort(ys, EventSeq);
    SortCorrect(xs, EventSeq);
    SortCorrect(ys, EventSeq);
    SortMembers(xs, EventSeq);
    SortMembers(ys, EventSeq);
    DistinctIncreases(a);
    DistinctIncreases(b);
    DistinctMembers(a);
    DistinctMembers(b);
    IncreasingUnique(Distinct(a), Distinct(b));
    TablesOfDistinct(s, a, ctx, now);
    TablesOfDistinct(s, b, ctx, now);
    assert forall q :: HoldsSeq(a, q) <==> HoldsSeq(b, q);
    AckDependsOnSeqs(s, a, ctx, Repeat(now, |a|), s, b, ctx, Repeat(now, |b|), last);
  }

  ghost predicate HoldsSeq(events: seq<SyncEvent>, q: int) {
    exists e :: e in events && e.seqNo == q
  }

  /** The ack depends only on which seqs the batch holds. */
  lemma {:induction false} AckDependsOnSeqs(s: Server, xs: seq<SyncEvent>, ctx: Context, times: seq<int>,
                         t: Server, ys: seq<SyncEvent>, other: Context, instants: seq<int>, last: int)
    requires |times| == |xs| && |instants| == |ys|
    requires forall q :: HoldsSeq(xs, q) <==> HoldsSeq(ys, q)
    ensures ComputeAckSeq(last, ProcessAll(s, xs, ctx, times).results)
         == ComputeAckSeq(last, ProcessAll(t, ys, other, instants).results)
  {
    var rs, qs := ProcessAll(s, xs, ctx, times).results, ProcessAll(t, ys, other, instants).results;
    ResultsFollowEvents(s, xs, ctx, times);
    ResultsFollowEvents(t, ys, other, instants);
    forall q
      ensures HasTerminal(q, rs) <==> HasTerminal(q, qs)
    {
      TerminalMeansPresent(q, rs, xs);
      TerminalMeansPresent(q, qs, ys);
    }
    AckIsGreatest(last, rs);
    AckIsGreatest(last, qs);
    var g, h := ComputeAckSeq(last, rs), ComputeAckSeq(last, qs);
    assert Covered(last, g, qs) && Covered(last, h, rs);
  }

  lemma {:induction false} TerminalMeansPresent(q: int, rs: seq<SyncResult>, events: seq<SyncEvent>)
    requires Answers(rs, events)
    ensures HasTerminal(q, rs) <==> HoldsSeq(events, q)
  {
    if HasTerminal(q, rs) {
      var i :| 0 <= i < |rs| && rs[i].seqNo == q;
      assert events[i] in events;
    }
    if e :| e in events && e.seqNo == q {
      var i :| 0 <= i < |events| && events[i] == e;
      assert rs[i] in rs;
    }
  }

  lemma {:induction false} ProcessAllAppend(s: Server, events: seq<SyncEvent>, e: SyncEvent, ctx: Context, times: seq<int>, now: int)
    requires |times| == |events|
    ensures var p := ProcessAll(s, events, ctx, times);
            && ProcessAll(s, events + [e], ctx, times + [now])
               == Progress(Process(p.server, e, ctx, now).server, p.results + [Process(p.server, e, ctx, now).result])
  {
    assert (events + [e])[..|events|] == events && (times + [now])[..|times|] == times;
  }

  lemma {:induction false} ProcessAllNothing(s: Server, ctx: Context)
    ensures ProcessAll(s, [], ctx, []) == Progress(s, [])
  {
  }

  lemma {:induction false} ProcessAllConcat(s: Server, xs: seq<SyncEvent>, ys: seq<SyncEvent>, ctx: Context,
                                            times: seq<int>, instants: seq<int>)
    requires |times| == |xs| && |instants| == |ys|
    ensures var p := ProcessAll(s, xs, ctx, times);
            var q := ProcessAll(p.server, ys, ctx, instants);
            && ProcessAll(s, xs + ys, ctx, times + instants) == Progress(q.server, p.results + q.results)
    decreases |ys|
  {
    hide Process, ProcessAll;
    if |ys| == 0 {
      assert xs + ys == xs && times + instants == times;
      ProcessAllNothing(ProcessAll(s, xs, ctx, times).server, ctx);
    } else {
      var n := |ys| - 1;
      ProcessAllConcat(s, xs, ys[..n], ctx, times, instants[..n]);
      var p := ProcessAll(s, xs, ctx, times);
      ProcessAllAppend(p.server, ys[..n], ys[n], ctx, instants[..n], instants[n]);
      ProcessAllAppend(s, xs + ys[..n], ys[n], ctx, times + instants[..n], instants[n]);
      assert ys == ys[..n] + [ys[n]] && instants == instants[..n] + [instants[n]];
      assert xs + ys == xs + ys[..n] + [ys[n]];
      assert times + instants == times + instants[..n] + [instants[n]];
    }
  }

  lemma {:induction false} AnswersOrdered(rs: seq<SyncResult>, xs: seq<SyncEvent>, qs: seq<SyncResult>, ys: seq<SyncEvent>)
    requires Answers(rs, xs) && Answers(qs, ys)
    requires forall x, y :: x in xs && y in ys ==> x.seqNo <= y.seqNo
    ensures forall x, y :: x in rs && y in qs ==> x.seqNo <= y.seqNo
  {
    forall x, y | x in rs && y in qs
      ensures x.seqNo <= y.seqNo
    {
      var i :| 0 <= i < |rs| && rs[i] == x;
      var j :| 0 <= j < |qs| && qs[j] == y;
      assert xs[i] in xs && ys[j] in ys;
    }
  }

  /** Uploading a seq-ordered batch in two parts, the second from the first one's ack, is
      uploading it at once: same tables, same verdicts, same final ack. */
  lemma {:induction false} SplitBatch(s: Server, xs: seq<SyncEvent>, ys: seq<SyncEvent>, last: int, ctx: Context,
                   times: seq<int>, instants: seq<int>)
    requires |times| == |xs| && |instants| == |ys|
    requires forall x, y :: x in xs && y in ys ==> x.seqNo <= y.seqNo
    ensures var first := Handle(s, xs, last, ctx, times);
            var second := Handle(first.server, ys, first.ack, ctx, instants);
            && Handle(s, xs + ys, last, ctx, times + instants)
               == Reply(second.server, first.results + second.results, second.ack)
  {
    hide Process;
    SortCorrect(xs, EventSeq);
    SortCorrect(ys, EventSeq);
    SortConcat(xs, ys, EventSeq);
    var a, b := Sort(xs, EventSeq), Sort(ys, EventSeq);
    ProcessAllConcat(s, a, b, ctx, times, instants);
    var p := ProcessAll(s, a, ctx, times);
    var q := ProcessAll(p.server, b, ctx, instants);
    ResultsFollowEvents(s, a, ctx, times);
    ResultsFollowEvents(p.server, b, ctx, instants);
    SortMembers(xs, EventSeq);
    SortMembers(ys, EventSeq);
    AnswersOrdered(p.results, a, q.results, b);
    AckComposes(last, p.results, q.results);
  }

  // ---- Verdicts of a batch of new events ---------------------------------------

  ghost predicate DistinctEvents(events: seq<SyncEvent>) {
    forall i, j :: 0 <= i < j < |events| ==> events[i].id != events[j].id && events[i].seqNo != events[j].seqNo
  }

  lemma {:induction false} OtherKeepsKnown(s: Server, e: SyncEvent, other: SyncEvent, ctx: Context, now: int)
    requires e.id != other.id && e.seqNo != other.seqNo
    ensures Known(Process(s, other, ctx, now).server.offline, ctx.pc, e) <==> Known(s.offline, ctx.pc, e)
  {
    hide Price;
    if Known(s.offline, ctx.pc, e) {
      KnownStays(s, e, ctx.pc, other, ctx, now);
    }
  }

  lemma {:induction false} OthersKeepKnown(s: Server, e: SyncEvent, events: seq<SyncEvent>, ctx: Context, times: seq<int>)
    requires |times| == |events|
    requires forall i :: 0 <= i < |events| ==> events[i].id != e.id && events[i].seqNo != e.seqNo
    ensures Known(ProcessAll(s, events, ctx, times).server.offline, ctx.pc, e) <==> Known(s.offline, ctx.pc, e)
  {
    hide Process, Known;
    if |events| > 0 {
      var n := |events| - 1;
      OthersKeepKnown(s, e, events[..n], ctx, times[..n]);
      OtherKeepsKnown(ProcessAll(s, events[..n], ctx, times[..n]).server, e, events[n], ctx, times[n]);
    }
  }

  /** A first processing answers with the verdict it records. */
  lemma {:induction false} NewVerdict(s: Server, evt: SyncEvent, ctx: Context, now: int)
    ensures var a := Process(s, evt, ctx, now);
            if Known(s.offline, ctx.pc, evt) then a.result.state.Duplicate? && a.server == s
            else evt.id in a.server.offline && a.server.offline[evt.id].state == a.result.state
  {
    hide Price;
  }

  /** In a batch, an event that was known before is answered `duplicate`; any other one is
      answered with the verdict that the server then holds. */
  lemma {:induction false} BatchVerdict(s: Server, events: seq<SyncEvent>, ctx: Context, times: seq<int>, j: nat)
    requires |times| == |events| && DistinctEvents(events) && j < |events|
    ensures var p, e := ProcessAll(s, events, ctx, times), events[j];
            && |p.results| == |events|
            && if Known(s.offline, ctx.pc, e) then p.results[j].state.Duplicate?
               else e.id in p.server.offline && p.server.offline[e.id].state == p.results[j].state
  {
    hide Process, Known;
    var n := |events| - 1;
    var p := ProcessAll(s, events[..n], ctx, times[..n]);
    ResultsFollowEvents(s, events[..n], ctx, times[..n]);
    if j == n {
      OthersKeepKnown(s, events[n], events[..n], ctx, times[..n]);
      NewVerdict(p.server, events[n], ctx, times[n]);
    } else {
      BatchVerdict(s, events[..n], ctx, times[..n], j);
      ProcessRecords(p.server, events[n], ctx, times[n]);
    }
  }

  // ---- What one event may touch ------------------------------------------------

  /** The conflict matrix: only an accepted event touches the session tables, it touches one
      row of its own PC and logs one happening for that row, and the verdict says which case
      of the matrix applied. An event about a running session touches the latest one. */
  lemma {:induction false} ConflictMatrix(s: Server, evt: SyncEvent, ctx: Context, now: int)
    requires !Known(s.offline, ctx.pc, evt)
    ensures var a := Process(s, evt, ctx, now);
            var busy := exists i :: 0 <= i < |s.sessions| && s.sessions[i].pc == ctx.pc && s.sessions[i].status.Active?;
            && (a.result.state.Accepted? <==>
                  (evt.etype.SessionStarted? && !busy)
                  || (busy && (evt.etype.SessionExtended? || evt.etype.SessionEnded? || evt.etype.SessionCancelled?)))
            && (a.result.state.Conflicted? <==>
                  (evt.etype.SessionStarted? && busy) || (evt.etype.SessionExtended? && !busy))
            && (a.result.state.Accepted? || a.result.state.Conflicted? || a.result.state.Duplicate?)
            && (!a.result.state.Accepted? ==> a.server.sessions == s.sessions && a.server.log == s.log)
            && (a.result.state.Accepted? ==>
                  && a.result.session.Some?
                  && var k := a.result.session.value;
                     && k < |a.server.sessions| && k <= |s.sessions|
                     && |a.server.sessions| == (if k < |s.sessions| then |s.sessions| else k + 1)
                     && a.server.sessions[k].pc == ctx.pc
                     && (k < |s.sessions| ==> s.sessions[k].pc == ctx.pc && s.sessions[k].status.Active?)
                     && (k < |s.sessions| ==>
                           forall i :: 0 <= i < |s.sessions| && s.sessions[i].pc == ctx.pc && s.sessions[i].status.Active?
                             ==> s.sessions[i].startedAt <= s.sessions[k].startedAt)
                     && (forall i :: 0 <= i < |s.sessions| && i != k ==> a.server.sessions[i] == s.sessions[i])
                     && |a.server.log| == |s.log| + 1 && a.server.log[..|s.log|] == s.log
                     && a.server.log[|s.log|].session == k)
  {
    hide Price;
    assert IsLatestActive(s.sessions, ctx.pc, LoadActiveSession(s.sessions, ctx.pc));
    hide LoadActiveSession;
  }

  function Distance(a: int, b: int): nat {
    if a < b then b - a else a - b
  }

  /** The number of minutes between 5 and 1440 that is nearest to what was asked for. */
  ghost predicate IsNearestAllowed(minutes: int, asked: int) {
    5 <= minutes <= 1440 && forall m :: 5 <= m <= 1440 ==> Distance(asked, minutes) <= Distance(asked, m)
  }

  /** A start asks for its planned minutes, or for an hour if it does not say. */
  function AskedStart(p: Payload): int {
    match p.planned
    case Number(n) => if n == 0 then 60 else n
    case _ => 60
  }

  /** An extension asks for its minutes, or for the planned ones if that field is missing. */
  function AskedExtension(p: Payload): int {
    match (p.minutes, p.planned)
    case (Number(n), _) => n
    case (Malformed, _) => 0
    case (Missing, Number(n)) => n
    case (Missing, _) => 0
  }

  lemma {:induction false} MinutesAreNearest(p: Payload)
    ensures IsNearestAllowed(PlannedMinutes(p), AskedStart(p))
    ensures IsNearestAllowed(ExtensionMinutes(p), AskedExtension(p))
  {
  }

  /** What an accepted event does to the row it concerns, and what is logged. A start that is
      processed after it ran out is closed at its due time and stamped with the processing time; an
      extension moves the expiry by the nearest allowed minutes and never the price; an end is
      never dated in the future. */
  lemma {:induction false} AcceptedOutcome(s: Server, evt: SyncEvent, ctx: Context, now: int)
    requires !Known(s.offline, ctx.pc, evt) && Process(s, evt, ctx, now).result.state.Accepted?
    ensures var t := Process(s, evt, ctx, now);
            && t.result.session.Some? && t.result.session.value < |t.server.sessions|
            && |t.server.log| == |s.log| + 1
            && var k, logged := t.result.session.value, t.server.log[|s.log|];
               var row := t.server.sessions[k];
               && (evt.etype.SessionStarted? ==>
                     && row.startedAt == evt.occurredAt && IsNearestAllowed(row.planned, AskedStart(evt.payload)) && row.extended == 0
                     && PriceResult(row.price, row.breakdown) == Price(ctx.rules, evt.occurredAt, row.planned, ctx.tier)
                     && row.origin.SuperadminOffline? && row.cafe == ctx.cafe && row.pc == ctx.pc && row.idempotencyKey.None?
                     && logged == SessionEvent(k, Started(row.planned, None), evt.occurredAt)
                     && var due := evt.occurredAt + row.planned * 60_000;
                        if now < due then row.status.Active? && row.expiresAt == due && row.endedAt.None?
                        else row.status.Expired? && row.expiresAt == now && row.endedAt == Some(due))
               && (!evt.etype.SessionStarted? ==> k < |s.sessions|)
               && (evt.etype.SessionExtended? ==>
                     var minutes := row.extended - s.sessions[k].extended;
                     && IsNearestAllowed(minutes, AskedExtension(evt.payload))
                     && row.expiresAt - s.sessions[k].expiresAt == minutes * 60_000
                     && row.(expiresAt := s.sessions[k].expiresAt, extended := s.sessions[k].extended) == s.sessions[k]
                     && logged == SessionEvent(k, Extension(minutes, None), evt.occurredAt))
               && (evt.etype.SessionEnded? || evt.etype.SessionCancelled? ==>
                     && row.status == (if evt.etype.SessionCancelled? then Cancelled else Ended)
                     && row.endedAt.Some? && row.endedAt.value <= now && row.endedAt.value <= evt.occurredAt
                     && (row.endedAt.value == now || row.endedAt.value == evt.occurredAt)
                     && row.(status := Active, endedAt := s.sessions[k].endedAt) == s.sessions[k]
                     && logged == SessionEvent(k, if evt.etype.SessionCancelled? then CancelOf else EndOf, row.endedAt.value))
  {
    hide Price, IsNearestAllowed, PlannedMinutes, ExtensionMinutes;
    MinutesAreNearest(evt.payload);
  }

  /** Exactly an event whose id is recorded, or whose number this PC has used, is a duplicate without
      any effect. Any other one leaves a row with what the event said and what was decided. */
  lemma {:induction false} RecordedRow(s: Server, evt: SyncEvent, ctx: Context, now: int)
    ensures var a := Process(s, evt, ctx, now);
            var busy := exists i :: 0 <= i < |s.sessions| && s.sessions[i].pc == ctx.pc && s.sessions[i].status.Active?;
            if evt.id in s.offline || (exists id :: id in s.offline && s.offline[id].pc == ctx.pc && s.offline[id].seqNo == evt.seqNo)
            then a == Answer(s, SyncResult(evt.id, evt.seqNo, Duplicate, None, None))
            else
              && evt.id in a.server.offline
              && var row := a.server.offline[evt.id];
                 && row.cafe == ctx.cafe && row.pc == ctx.pc && row.seqNo == evt.seqNo && row.etype == evt.etype
                 && row.occurredAt == evt.occurredAt && row.payload == evt.payload
                 && a.result == SyncResult(evt.id, evt.seqNo, row.state, row.reason, row.session)
                 && row.reason == (if evt.etype.SessionStarted? && busy then Some(DuplicateSession)
                                   else if evt.etype.SessionExtended? && !busy then Some(SessionAlreadyEnded) else None)
                 && (row.session.Some? <==> row.state.Accepted?)
  {
    hide Price;
    assert IsLatestActive(s.sessions, ctx.pc, LoadActiveSession(s.sessions, ctx.pc));
    hide LoadActiveSession;
  }
}
