/** One PC's part of the server: its own sessions and records. What its agent does depends on
    nothing else, and what others do leaves it alone. */
module OnePc {
  import opened Domain
  import Pricing
  import opened SyncServer
  import opened Lifecycle

  /** The sessions of one PC, in the order of the table. */
  function Own(sessions: seq<Session>, pc: nat): seq<Session> {
    if |sessions| == 0 then []
    else
      var last := |sessions| - 1;
      Own(sessions[..last], pc) + if sessions[last].pc == pc then [sessions[last]] else []
  }

  /** The position of a session among those of its PC. */
  function Rank(sessions: seq<Session>, k: nat, pc: nat): nat
    requires k <= |sessions|
  {
    |Own(sessions[..k], pc)|
  }

  lemma {:induction false} OwnAppend(sessions: seq<Session>, row: Session, pc: nat)
    ensures Own(sessions + [row], pc) == Own(sessions, pc) + if row.pc == pc then [row] else []
  {
    assert (sessions + [row])[..|sessions|] == sessions;
  }

  lemma {:induction false} OwnUpdate(sessions: seq<Session>, k: nat, row: Session, pc: nat)
    requires k < |sessions| && row.pc == sessions[k].pc
    ensures var own := Own(sessions, pc);
            if row.pc == pc
            then Rank(sessions, k, pc) < |own| && own[Rank(sessions, k, pc)] == sessions[k]
                 && Own(sessions[k := row], pc) == own[Rank(sessions, k, pc) := row]
            else Own(sessions[k := row], pc) == own
  {
    hide Own;
    var last := |sessions| - 1;
    var front := sessions[..last];
    assert sessions == front + [sessions[last]];
    OwnAppend(front, sessions[last], pc);
    if k == last {
      assert sessions[k := row] == front + [row];
      OwnAppend(front, row, pc);
    } else {
      OwnUpdate(front, k, row, pc);
      assert sessions[k := row] == front[k := row] + [sessions[last]];
      OwnAppend(front[k := row], sessions[last], pc);
      assert front[..k] == sessions[..k];
    }
  }

  lemma {:induction false} LoadActiveAppend(sessions: seq<Session>, row: Session, pc: nat)
    ensures var k := LoadActiveSession(sessions, pc);
            && (k.Some? ==> k.value < |sessions| && IsActiveOn(sessions[k.value], pc))
            && LoadActiveSession(sessions + [row], pc) ==
               if IsActiveOn(row, pc) && (k.None? || sessions[k.value].startedAt < row.startedAt) then Some(|sessions|) else k
  {
    assert (sessions + [row])[..|sessions|] == sessions;
  }

  /** The active session is the same one, wherever the other PCs' sessions stand. */
  ghost predicate SameActive(sessions: seq<Session>, pc: nat) {
    var k, own := LoadActiveSession(sessions, pc), Own(sessions, pc);
    match k
    case None => LoadActiveSession(own, pc) == None
    case Some(k) =>
      && k < |sessions| && sessions[k].pc == pc && Rank(sessions, k, pc) < |own|
      && LoadActiveSession(own, pc) == Some(Rank(sessions, k, pc)) && own[Rank(sessions, k, pc)] == sessions[k]
  }

  lemma {:induction false} SameActiveAppend(front: seq<Session>, row: Session, pc: nat)
    requires SameActive(front, pc)
    ensures SameActive(front + [row], pc)
  {
    hide Own, LoadActiveSession;
    var all, own := front + [row], Own(front, pc);
    LoadActiveAppend(front, row, pc);
    OwnAppend(front, row, pc);
    assert all[..|front|] == front;
    var k := LoadActiveSession(front, pc);
    if k.Some? {
      assert all[..k.value] == front[..k.value];
    }
    if row.pc == pc {
      LoadActiveAppend(own, row, pc);
    } else {
      assert own + [] == own;
    }
  }

  lemma {:induction false} OwnActive(sessions: seq<Session>, pc: nat)
    ensures SameActive(sessions, pc)
  {
    if |sessions| > 0 {
      var last := |sessions| - 1;
      OwnActive(sessions[..last], pc);
      hide SameActive;
      SameActiveAppend(sessions[..last], sessions[last], pc);
      assert sessions[..last] + [sessions[last]] == sessions;
    }
  }

  lemma {:induction false} StartRowIsOurs(evt: SyncEvent, ctx: Context, now: int)
    ensures StartRow(evt, ctx, now).pc == ctx.pc
  {
    hide Pricing.Price;
  }

  /** The same record; the id of its session depends on the other PCs' sessions. */
  predicate SameRow(a: OfflineRow, b: OfflineRow) {
    a.(session := None) == b.(session := None)
  }

  /** To this PC the server looks like `b`. */
  ghost predicate LooksLike(a: Server, b: Server, pc: nat) {
    && Own(a.sessions, pc) == Own(b.sessions, pc)
    && (forall id :: id in b.offline && b.offline[id].pc == pc ==> id in a.offline && SameRow(a.offline[id], b.offline[id]))
    && (forall id :: id in a.offline && a.offline[id].pc == pc ==> id in b.offline && SameRow(a.offline[id], b.offline[id]))
  }

  lemma {:induction false} LooksLikeStill(a: Server, b: Server, c: Server, pc: nat)
    requires LooksLike(a, b, pc) && LooksLike(b, c, pc)
    ensures LooksLike(a, c, pc)
  {
    forall id | id in c.offline && c.offline[id].pc == pc
      ensures id in a.offline && SameRow(a.offline[id], c.offline[id])
    {
      assert SameRow(b.offline[id], c.offline[id]);
    }
    forall id | id in a.offline && a.offline[id].pc == pc
      ensures id in c.offline && SameRow(a.offline[id], c.offline[id])
    {
      assert SameRow(a.offline[id], b.offline[id]);
    }
  }

  /** An event id is not taken by another PC. */
  predicate IdIsOurs(s: Server, pc: nat, e: SyncEvent) {
    e.id in s.offline ==> s.offline[e.id].pc == pc
  }

  lemma {:induction false} KnownByLooks(a: Server, b: Server, pc: nat, e: SyncEvent)
    requires LooksLike(a, b, pc) && IdIsOurs(a, pc, e) && IdIsOurs(b, pc, e)
    ensures Known(a.offline, pc, e) <==> Known(b.offline, pc, e)
  {
    if SeqTaken(a.offline, pc, e.seqNo) {
      var id :| id in a.offline && a.offline[id].pc == pc && a.offline[id].seqNo == e.seqNo;
      assert SameRow(a.offline[id], b.offline[id]);
    }
    if SeqTaken(b.offline, pc, e.seqNo) {
      var id :| id in b.offline && b.offline[id].pc == pc && b.offline[id].seqNo == e.seqNo;
      assert SameRow(a.offline[id], b.offline[id]);
    }
  }

  /** This PC's sessions, on their own. */
  function Part(s: Server, pc: nat): Server {
    Server(Own(s.sessions, pc), [], map[])
  }

  lemma {:induction false} ExtendPart(s: Server, e: SyncEvent, k: nat, pc: nat)
    requires k < |s.sessions| && s.sessions[k].pc == pc
    ensures Rank(s.sessions, k, pc) < |Own(s.sessions, pc)|
    ensures Own(ApplyAcceptExtend(s, e, k).sessions, pc)
         == ApplyAcceptExtend(Part(s, pc), e, Rank(s.sessions, k, pc)).sessions
  {
    hide Own;
    OwnUpdate(s.sessions, k, ApplyAcceptExtend(s, e, k).sessions[k], pc);
  }

  lemma {:induction false} EndPart(s: Server, e: SyncEvent, k: nat, now: int, pc: nat)
    requires k < |s.sessions| && s.sessions[k].pc == pc
    ensures Rank(s.sessions, k, pc) < |Own(s.sessions, pc)|
    ensures Own(ApplyAcceptEnd(s, e, k, now).sessions, pc)
         == ApplyAcceptEnd(Part(s, pc), e, Rank(s.sessions, k, pc), now).sessions
  {
    hide Own;
    OwnUpdate(s.sessions, k, ApplyAcceptEnd(s, e, k, now).sessions[k], pc);
  }

  lemma {:induction false} StartPart(s: Server, e: SyncEvent, ctx: Context, now: int)
    ensures Own(ApplyAcceptStart(s, e, ctx, now).sessions, ctx.pc) == ApplyAcceptStart(Part(s, ctx.pc), e, ctx, now).sessions
  {
    StartRowIsOurs(e, ctx, now);
    hide Own, StartRow;
    OwnAppend(s.sessions, StartRow(e, ctx, now), ctx.pc);
  }

  /** Applying an event to this PC's sessions among all others is applying it to them alone. */
  lemma {:induction false} ApplyToPart(s: Server, e: SyncEvent, ctx: Context, now: int)
    ensures var part := Part(s, ctx.pc);
            var k, r := LoadActiveSession(s.sessions, ctx.pc), LoadActiveSession(part.sessions, ctx.pc);
            var d := ResolveOfflineEvent(StatusOf(s.sessions, k), e.etype);
            && d == ResolveOfflineEvent(StatusOf(part.sessions, r), e.etype)
            && var x, y := ApplyOfflineDecision(s, e, ctx, k, now, d), ApplyOfflineDecision(part, e, ctx, r, now, d);
               x.state == y.state && Own(x.server.sessions, ctx.pc) == y.server.sessions
  {
    hide Own, LoadActiveSession, ApplyAcceptStart, ApplyAcceptExtend, ApplyAcceptEnd, Rank;
    OwnActive(s.sessions, ctx.pc);
    var k := LoadActiveSession(s.sessions, ctx.pc);
    match ResolveOfflineEvent(StatusOf(s.sessions, k), e.etype)
    case AcceptStart => StartPart(s, e, ctx, now);
    case AcceptExtend =>
      if k.Some? {
        ExtendPart(s, e, k.value, ctx.pc);
      }
    case AcceptEnd =>
      if k.Some? {
        EndPart(s, e, k.value, now, ctx.pc);
      }
    case _ =>
  }

  /** What applying an event does to this PC's sessions depends on these sessions only. */
  lemma {:induction false} ApplyByLooks(a: Server, b: Server, e: SyncEvent, ctx: Context, now: int)
    requires Own(a.sessions, ctx.pc) == Own(b.sessions, ctx.pc)
    ensures var j, k := LoadActiveSession(a.sessions, ctx.pc), LoadActiveSession(b.sessions, ctx.pc);
            var d := ResolveOfflineEvent(StatusOf(a.sessions, j), e.etype);
            && d == ResolveOfflineEvent(StatusOf(b.sessions, k), e.etype)
            && var x, y := ApplyOfflineDecision(a, e, ctx, j, now, d), ApplyOfflineDecision(b, e, ctx, k, now, d);
               x.state == y.state && Own(x.server.sessions, ctx.pc) == Own(y.server.sessions, ctx.pc)
  {
    hide Own, LoadActiveSession, ApplyOfflineDecision, ResolveOfflineEvent;
    ApplyToPart(a, e, ctx, now);
    ApplyToPart(b, e, ctx, now);
    assert Part(a, ctx.pc) == Part(b, ctx.pc);
  }

  lemma {:induction false} KnownIsNoOp(s: Server, e: SyncEvent, ctx: Context, now: int)
    requires Known(s.offline, ctx.pc, e)
    ensures Process(s, e, ctx, now).server == s
  {
    hide Pricing.Price;
  }

  lemma {:induction false} NewRecord(s: Server, e: SyncEvent, ctx: Context, now: int)
    requires !Known(s.offline, ctx.pc, e)
    ensures var k := LoadActiveSession(s.sessions, ctx.pc);
            var d := ResolveOfflineEvent(StatusOf(s.sessions, k), e.etype);
            var out := ApplyOfflineDecision(s, e, ctx, k, now, d);
            && Process(s, e, ctx, now).server.sessions == out.server.sessions
            && Process(s, e, ctx, now).server.offline
               == s.offline[e.id := RowOf(e, ctx).(state := out.state, reason := ReasonOf(d), session := out.session)]
  {
    hide Pricing.Price;
  }

  /** Two servers that look alike to this PC still do after both processed the same event of it. */
  lemma {:induction false} ProcessByLooks(a: Server, b: Server, e: SyncEvent, ctx: Context, now: int)
    requires LooksLike(a, b, ctx.pc) && IdIsOurs(a, ctx.pc, e) && IdIsOurs(b, ctx.pc, e)
    ensures LooksLike(Process(a, e, ctx, now).server, Process(b, e, ctx, now).server, ctx.pc)
  {
    hide Process, Known, LoadActiveSession, ApplyOfflineDecision, Own;
    KnownByLooks(a, b, ctx.pc, e);
    if Known(a.offline, ctx.pc, e) {
      KnownIsNoOp(a, e, ctx, now);
      KnownIsNoOp(b, e, ctx, now);
    } else {
      ApplyByLooks(a, b, e, ctx, now);
      NewRecord(a, e, ctx, now);
      NewRecord(b, e, ctx, now);
    }
  }

  // ---- What others do -----------------------------------------------------------

  predicate OpIsElsewhere(s: Server, op: Op, pc: nat) {
    match op
    case StartOp(_, input, _, _, _) => input.pc != pc
    case ExtendOp(_, id, _, _, _, _) => id < |s.sessions| ==> s.sessions[id].pc != pc
    case ChangeOp(_, id, _, _) => id < |s.sessions| ==> s.sessions[id].pc != pc
    case SweepOp(now) => forall i :: 0 <= i < |s.sessions| && s.sessions[i].pc == pc ==> !Due(s.sessions[i], now)
    case SyncOp(_, ctx, _) => ctx.pc != pc
  }

  /** A transaction, or a statement of a resolution, that concerns other PCs only. */
  predicate IsElsewhere(d: Desk, act: Act, pc: nat)
    requires CanDo(d, act)
  {
    match act
    case Plain(op) => OpIsElsewhere(d.server, op, pc)
    case WriteExtension(req) => d.server.sessions[d.resolving[req].stage.active.value.k].pc != pc
    case WriteVerdict(req) => d.server.offline[d.resolving[req].id].pc != pc
    case _ => true
  }

  lemma {:induction false} OwnSweep(sessions: seq<Session>, now: int, pc: nat)
    requires forall i :: 0 <= i < |sessions| && sessions[i].pc == pc ==> !Due(sessions[i], now)
    ensures Own(SweptRows(sessions, now), pc) == Own(sessions, pc)
  {
    if |sessions| > 0 {
      var last := |sessions| - 1;
      OwnSweep(sessions[..last], now, pc);
      assert SweptRows(sessions, now)[..last] == SweptRows(sessions[..last], now);
    }
  }

  lemma {:induction false} SyncElsewhere(s: Server, e: SyncEvent, ctx: Context, now: int, pc: nat)
    requires ctx.pc != pc
    ensures LooksLike(Process(s, e, ctx, now).server, s, pc)
  {
    hide StartRow, LoadActiveSession, Own;
    if Known(s.offline, ctx.pc, e) {
      KnownIsNoOp(s, e, ctx, now);
    } else {
      NewRecord(s, e, ctx, now);
      hide Process;
      OwnActive(s.sessions, ctx.pc);
      var k := LoadActiveSession(s.sessions, ctx.pc);
      match ResolveOfflineEvent(StatusOf(s.sessions, k), e.etype)
      case AcceptStart =>
        StartRowIsOurs(e, ctx, now);
        OwnAppend(s.sessions, StartRow(e, ctx, now), pc);
      case AcceptExtend =>
        if k.Some? { OwnUpdate(s.sessions, k.value, ApplyAcceptExtend(s, e, k.value).sessions[k.value], pc); }
      case AcceptEnd =>
        if k.Some? { OwnUpdate(s.sessions, k.value, ApplyAcceptEnd(s, e, k.value, now).sessions[k.value], pc); }
      case _ =>
    }
  }

  lemma {:induction false} OpElsewhere(s: Server, op: Op, pc: nat)
    requires OpIsElsewhere(s, op, pc)
    ensures LooksLike(Do(s, op), s, pc)
  {
    hide Own, Pricing.Price, Process, SweptRows;
    match op
    case StartOp(cafe, input, row, rules, now) =>
      if row.Some? {
        OwnAppend(s.sessions, OnlineRow(cafe, input, row.value.tier, rules, now), pc);
      }
    case ExtendOp(_, id, minutes, tier, rules, _) =>
      if id < |s.sessions| {
        OwnUpdate(s.sessions, id, ExtendedRow(s.sessions[id], minutes, tier, rules), pc);
      }
    case ChangeOp(_, id, t, now) =>
      if id < |s.sessions| {
        OwnUpdate(s.sessions, id, TransitionRow(s.sessions[id], t, now), pc);
      }
    case SweepOp(now) => OwnSweep(s.sessions, now, pc);
    case SyncOp(evt, ctx, now) => SyncElsewhere(s, evt, ctx, now, pc);
  }

  /** Whatever staff and other agents do about other PCs, this PC does not see it. */
  lemma {:induction false} ElsewhereLooksTheSame(d: Desk, act: Act, pc: nat)
    requires CanDo(d, act) && IsElsewhere(d, act, pc)
    ensures LooksLike(Execute(d, act).server, d.server, pc)
  {
    hide Own, Do, OpIsElsewhere;
    var s := d.server;
    match act
    case Plain(op) => OpElsewhere(s, op, pc);
    case WriteExtension(req) =>
      var r := d.resolving[req];
      var k := r.stage.active.value.k;
      OwnUpdate(s.sessions, k, Rewritten(s.sessions[k], r.stage.active.value.row, ResolvedMinutes(r.event.payload)), pc);
    case _ =>
  }
}
