/** Every transaction that changes the session table: the staff's requests, the expiry sweep,
    the resolution of offline conflicts, and the ingestion of offline events. */
module Lifecycle {
  import opened Domain
  import opened Pricing
  import opened SyncServer

  datatype PcStatus = Online | Offline | Disabled | Maintenance

  datatype PcRow = PcRow(cafe: nat, tier: Option<nat>, status: PcStatus)

  datatype Problem =
    | InvalidRequest | PcNotFound | PcNotAvailable | PcBusy
    | SessionNotFound | SessionNotActive | SessionAlreadyTerminal | SessionNotPaused
    | EventNotFound | NotConflicted | InvalidTimeValue

  /** The tables after a request, and the problem it was refused with, if any. */
  datatype Response = Response(server: Server, problem: Option<Problem>)

  datatype Transition = End | Cancel | Pause | Resume

  datatype Resolution = AcceptServer | AcceptOffline | Manual

  // ---- start.ts ----------------------------------------------------------------

  datatype StartInput = StartInput(pc: nat, planned: int, origin: Origin, key: Option<string>)

  predicate ValidMinutes(n: int) {
    MIN_MINUTES <= n <= MAX_MINUTES
  }

  predicate HasKey(sessions: seq<Session>, key: Option<string>) {
    key.Some? && exists i :: 0 <= i < |sessions| && sessions[i].idempotencyKey == key
  }

  predicate Busy(sessions: seq<Session>, pc: nat) {
    exists i :: 0 <= i < |sessions| && sessions[i].pc == pc && (sessions[i].status.Active? || sessions[i].status.Scheduled?)
  }

  function OnlineRow(cafe: nat, input: StartInput, tier: Option<nat>, rules: seq<Rule>, now: int): Session {
    var price := Price(rules, now, input.planned, tier);
    Session(cafe, input.pc, now, now + input.planned * MINUTE_MS, None, input.planned, 0, price.amount, price.breakdown,
            Active, input.origin, input.key)
  }

  /** `pc` is the row of input.pc, if there is one. */
  function StartSession(s: Server, cafe: nat, input: StartInput, pc: Option<PcRow>, rules: seq<Rule>, now: int): Response {
    if !ValidMinutes(input.planned) || input.origin.SuperadminOffline? then Response(s, Some(InvalidRequest))
    else if HasKey(s.sessions, input.key) then Response(s, None)
    else if pc.None? || pc.value.cafe != cafe then Response(s, Some(PcNotFound))
    else if pc.value.status.Disabled? || pc.value.status.Maintenance? then Response(s, Some(PcNotAvailable))
    else if Busy(s.sessions, input.pc) then Response(s, Some(PcBusy))
    else
      var row := OnlineRow(cafe, input, pc.value.tier, rules, now);
      Response(s.(sessions := s.sessions + [row],
                  log := s.log + [SessionEvent(|s.sessions|, Started(input.planned, Some(row.price)), now)]), None)
  }

  // ---- handlers.ts -------------------------------------------------------------

  predicate Exists(sessions: seq<Session>, cafe: nat, id: nat) {
    id < |sessions| && sessions[id].cafe == cafe
  }

  function ExtendedRow(row: Session, minutes: int, tier: Option<nat>, rules: seq<Rule>): Session {
    var price := Price(rules, row.startedAt, row.planned + row.extended + minutes, tier);
    row.(expiresAt := row.expiresAt + minutes * MINUTE_MS, extended := row.extended + minutes,
         price := price.amount, breakdown := price.breakdown)
  }

  /** `tier` is the tier of the session's PC. */
  function ExtendSession(s: Server, cafe: nat, id: nat, minutes: int, tier: Option<nat>, rules: seq<Rule>, now: int): Response {
    if !ValidMinutes(minutes) then Response(s, Some(InvalidRequest))
    else if !Exists(s.sessions, cafe, id) then Response(s, Some(SessionNotFound))
    else if !s.sessions[id].status.Active? then Response(s, Some(SessionNotActive))
    else
      var row := s.sessions[id];
      var next := ExtendedRow(row, minutes, tier, rules);
      Response(s.(sessions := s.sessions[id := next],
                  log := s.log + [SessionEvent(id, Extension(minutes, Some(next.price - row.price)), now)]), None)
  }

  function TransitionRow(row: Session, t: Transition, now: int): Session {
    match t
    case End => row.(status := Ended, endedAt := Some(now))
    case Cancel => row.(status := Cancelled, endedAt := Some(now))
    case Pause => row.(status := Paused)
    case Resume => row.(status := Active)
  }

  function TransitionLog(t: Transition): Happening {
    match t
    case End => EndOf
    case Cancel => CancelOf
    case Pause => PauseOf
    case Resume => ResumeOf
  }

  function ChangeSession(s: Server, cafe: nat, id: nat, t: Transition, now: int): Response {
    if !Exists(s.sessions, cafe, id) then Response(s, Some(SessionNotFound))
    else
      var row := s.sessions[id];
      if row.status.Terminal() then Response(s, Some(SessionAlreadyTerminal))
      else if t.Pause? && !row.status.Active? then Response(s, Some(SessionNotActive))
      else if t.Resume? && !row.status.Paused? then Response(s, Some(SessionNotPaused))
      else Response(s.(sessions := s.sessions[id := TransitionRow(row, t, now)],
                       log := s.log + [SessionEvent(id, TransitionLog(t), now)]), None)
  }

  // ---- expiry.ts ---------------------------------------------------------------

  predicate Due(row: Session, now: int) {
    row.status.Active? && row.expiresAt < now
  }

  function SweptRow(row: Session, now: int): Session {
    if Due(row, now) then row.(status := Expired, endedAt := Some(now)) else row
  }

  function SweptRows(sessions: seq<Session>, now: int): (rows: seq<Session>)
    ensures |rows| == |sessions|
    ensures forall i :: 0 <= i < |rows| ==> rows[i] == SweptRow(sessions[i], now)
  {
    seq(|sessions|, i requires 0 <= i < |sessions| => SweptRow(sessions[i], now))
  }

  /** The ids that the bulk update returns. */
  function DueIds(sessions: seq<Session>, now: int): (ids: seq<nat>)
    ensures forall k :: 0 <= k < |ids| ==> ids[k] < |sessions| && Due(sessions[ids[k]], now)
  {
    if |sessions| == 0 then []
    else
      var last := |sessions| - 1;
      DueIds(sessions[..last], now) + if Due(sessions[last], now) then [last] else []
  }

  function ExpiryLog(sessions: seq<Session>, ids: seq<nat>, now: int): (log: seq<SessionEvent>)
    requires forall k :: 0 <= k < |ids| ==> ids[k] < |sessions|
    ensures |log| == |ids|
    ensures forall k :: 0 <= k < |ids| ==> log[k] == SessionEvent(ids[k], ExpiryOf(sessions[ids[k]].expiresAt), now)
  {
    if |ids| == 0 then []
    else
      var id := ids[|ids| - 1];
      ExpiryLog(sessions, ids[..|ids| - 1], now) + [SessionEvent(id, ExpiryOf(sessions[id].expiresAt), now)]
  }

  function Sweep(s: Server, now: int): Server {
    s.(sessions := SweptRows(s.sessions, now),
       log := s.log + ExpiryLog(s.sessions, DueIds(s.sessions, now), now))
  }

  // ---- sync/handlers.ts: handleResolveSyncConflict -----------------------------

  /** Some active session of the PC, as an unordered query returns it. */
  predicate IsSomeActive(sessions: seq<Session>, pc: nat, k: Option<nat>) {
    match k
    case None => forall i :: 0 <= i < |sessions| ==> !IsActiveOn(sessions[i], pc)
    case Some(k) => k < |sessions| && IsActiveOn(sessions[k], pc)
  }

  /** The row after the resolution's verdict is written to it. */
  function Settled(row: OfflineRow, resolution: Resolution): OfflineRow {
    match resolution
    case AcceptServer => row.(state := Duplicate)
    case Manual => row.(state := Accepted)
    case AcceptOffline => row.(state := Accepted, reason := None)
  }

  function ExtendUnpriced(row: Session, minutes: int): Session {
    row.(expiresAt := row.expiresAt + minutes * MINUTE_MS, extended := row.extended + minutes)
  }

  function ResolveConflict(s: Server, cafe: nat, id: nat, resolution: Resolution, active: Option<nat>): Response
    requires active.Some? ==> active.value < |s.sessions|
  {
    if id !in s.offline || s.offline[id].cafe != cafe then Response(s, Some(EventNotFound))
    else if !s.offline[id].state.Conflicted? then Response(s, Some(NotConflicted))
    else
      var event := s.offline[id];
      var settled := s.(offline := s.offline[id := Settled(event, resolution)]);
      var decision := ResolveOfflineEvent(StatusOf(s.sessions, active), event.etype);
      if resolution.AcceptOffline? && decision.AcceptExtend? && active.Some? && event.etype.SessionExtended? then
        if event.payload.minutes.Malformed? then Response(s, Some(InvalidTimeValue))
        else
          var row := ExtendUnpriced(s.sessions[active.value], ResolvedMinutes(event.payload));
          Response(settled.(sessions := s.sessions[active.value := row]), None)
      else Response(settled, None)
  }

  /** `Number(payload.minutes ?? 0)`, unless that is NaN. */
  function ResolvedMinutes(p: Payload): int {
    if p.minutes.Number? then p.minutes.n else 0
  }

  // ---- The requests as they are executed ---------------------------------------

  method HandleStartSession(db: CafeDatabase, cafe: nat, input: StartInput, pc: Option<PcRow>, rules: seq<Rule>, now: int)
    returns (problem: Option<Problem>)
    modifies db
    ensures Response(db.View(), problem) == StartSession(old(db.View()), cafe, input, pc, rules, now)
  {
    hide Price;
    if !ValidMinutes(input.planned) || input.origin.SuperadminOffline? { return Some(InvalidRequest); }
    if HasKey(db.sessions, input.key) { return None; }
    if pc.None? || pc.value.cafe != cafe { return Some(PcNotFound); }
    if pc.value.status.Disabled? || pc.value.status.Maintenance? { return Some(PcNotAvailable); }
    if Busy(db.sessions, input.pc) { return Some(PcBusy); }
    var price := ComputePrice(rules, now, input.planned, pc.value.tier);
    var expires := now + input.planned * MINUTE_MS;
    var id := db.InsertSession(Session(cafe, input.pc, now, expires, None, input.planned, 0, price.amount, price.breakdown,
                                       Active, input.origin, input.key));
    db.InsertSessionEvent(id, Started(input.planned, Some(price.amount)), now);
    problem := None;
  }

  method HandleExtendSession(db: CafeDatabase, cafe: nat, id: nat, minutes: int, tier: Option<nat>, rules: seq<Rule>, now: int)
    returns (problem: Option<Problem>)
    modifies db
    ensures Response(db.View(), problem) == ExtendSession(old(db.View()), cafe, id, minutes, tier, rules, now)
  {
    hide Price;
    if !ValidMinutes(minutes) { return Some(InvalidRequest); }
    if !Exists(db.sessions, cafe, id) { return Some(SessionNotFound); }
    var session := db.sessions[id];
    if !session.status.Active? { return Some(SessionNotActive); }
    var totalMinutes := session.planned + session.extended + minutes;
    var newPrice := ComputePrice(rules, session.startedAt, totalMinutes, tier);
    var delta := newPrice.amount - session.price;
    var newExpires := session.expiresAt + minutes * MINUTE_MS;
    db.sessions := db.sessions[id := session.(expiresAt := newExpires, extended := session.extended + minutes,
                                              price := newPrice.amount, breakdown := newPrice.breakdown)];
    db.InsertSessionEvent(id, Extension(minutes, Some(delta)), now);
    problem := None;
  }

  method HandleTransition(db: CafeDatabase, cafe: nat, id: nat, t: Transition, now: int) returns (problem: Option<Problem>)
    modifies db
    ensures Response(db.View(), problem) == ChangeSession(old(db.View()), cafe, id, t, now)
  {
    if !Exists(db.sessions, cafe, id) { return Some(SessionNotFound); }
    var session := db.sessions[id];
    if session.status.Terminal() { return Some(SessionAlreadyTerminal); }
    if t.Pause? && session.status != Active { return Some(SessionNotActive); }
    if t.Resume? && session.status != Paused { return Some(SessionNotPaused); }
    var next := session;
    if t.End? {
      next := session.(status := Ended, endedAt := Some(now));
    } else if t.Cancel? {
      next := session.(status := Cancelled, endedAt := Some(now));
    } else if t.Pause? {
      next := session.(status := Paused);
    } else if t.Resume? {
      next := session.(status := Active);
    }
    db.sessions := db.sessions[id := next];
    db.InsertSessionEvent(id, TransitionLog(t), now);
    problem := None;
  }

  method ExpireDueSessions(db: CafeDatabase, now: int) returns (ids: seq<nat>)
    modifies db
    ensures db.View() == Sweep(old(db.View()), now)
    ensures ids == DueIds(old(db.sessions), now)
  {
    ghost var before := db.View();
    ids := DueIds(db.sessions, now);
    var expired := db.sessions;
    db.sessions := SweptRows(db.sessions, now);
    for k := 0 to |ids|
      invariant db.View() == before.(sessions := SweptRows(before.sessions, now),
                                     log := before.log + ExpiryLog(before.sessions, ids, now)[..k])
    {
      db.InsertSessionEvent(ids[k], ExpiryOf(expired[ids[k]].expiresAt), now);
    }
  }

  method HandleResolveSyncConflict(db: CafeDatabase, cafe: nat, id: nat, resolution: Resolution, active: Option<nat>)
    returns (problem: Option<Problem>)
    requires active.Some? ==> active.value < |db.sessions|
    modifies db
    ensures Response(db.View(), problem) == ResolveConflict(old(db.View()), cafe, id, resolution, active)
  {
    if id !in db.offline || db.offline[id].cafe != cafe { return Some(EventNotFound); }
    var event := db.offline[id];
    if !event.state.Conflicted? { return Some(NotConflicted); }
    if resolution.AcceptServer? {
      db.offline := db.offline[id := event.(state := Duplicate)];
    } else if resolution.Manual? {
      db.offline := db.offline[id := event.(state := Accepted)];
    } else {
      var decision := ResolveOfflineEvent(StatusOf(db.sessions, active), event.etype);
      if decision.AcceptExtend? && active.Some? && event.etype.SessionExtended? {
        if event.payload.minutes.Malformed? { return Some(InvalidTimeValue); }
        var minutes := if event.payload.minutes.Number? then event.payload.minutes.n else 0;
        var session := db.sessions[active.value];
        db.sessions := db.sessions[active.value := session.(expiresAt := session.expiresAt + minutes * MINUTE_MS,
                                                            extended := session.extended + minutes)];
      }
      db.offline := db.offline[id := event.(state := Accepted, reason := None)];
    }
    problem := None;
  }

  // ---- A resolution, statement by statement --------------------------------------

  /** The active session as a resolution saw it when it looked it up. */
  datatype Glimpse = Glimpse(k: nat, row: Session)

  datatype Stage = Checked | Looked(active: Option<Glimpse>) | Written

  /** A resolution in flight: the event as it read it, and how far it has come. */
  datatype Resolver = Resolver(id: nat, resolution: Resolution, event: OfflineRow, stage: Stage)

  /** The tables and the resolutions in flight, by request. One that stops half-way just stays. */
  datatype Desk = Desk(server: Server, resolving: map<nat, Resolver>)

  /** The resolution is about to write the session that it looked up. */
  predicate Extends(r: Resolver) {
    && r.stage.Looked? && r.stage.active.Some? && r.event.etype.SessionExtended?
    && ResolveOfflineEvent(Some(r.stage.active.value.row.status), r.event.etype).AcceptExtend?
  }

  /** The resolution is about to write its verdict. */
  predicate Settles(r: Resolver) {
    if r.resolution.AcceptOffline? then r.stage.Written? || (r.stage.Looked? && !Extends(r)) else r.stage.Checked?
  }

  /** The update sets expiry and minutes to what was seen, plus the event's minutes. */
  function Rewritten(row: Session, seen: Session, minutes: int): Session {
    row.(expiresAt := seen.expiresAt + minutes * MINUTE_MS, extended := seen.extended + minutes)
  }

  // ---- Runs --------------------------------------------------------------------

  datatype Op =
    | StartOp(cafe: nat, input: StartInput, row: Option<PcRow>, rules: seq<Rule>, now: int)
    | ExtendOp(cafe: nat, id: nat, minutes: int, tier: Option<nat>, rules: seq<Rule>, now: int)
    | ChangeOp(cafe: nat, id: nat, t: Transition, now: int)
    | SweepOp(now: int)
    | SyncOp(evt: SyncEvent, ctx: Context, now: int)

  function Do(s: Server, op: Op): Server {
    match op
    case StartOp(cafe, input, row, rules, now) => StartSession(s, cafe, input, row, rules, now).server
    case ExtendOp(cafe, id, minutes, tier, rules, now) => ExtendSession(s, cafe, id, minutes, tier, rules, now).server
    case ChangeOp(cafe, id, t, now) => ChangeSession(s, cafe, id, t, now).server
    case SweepOp(now) => Sweep(s, now)
    case SyncOp(evt, ctx, now) => Process(s, evt, ctx, now).server
  }

  /** A whole transaction, or one statement of the resolution that request `req` runs. */
  datatype Act =
    | Plain(op: Op)
    | ReadConflict(req: nat, cafe: nat, id: nat, resolution: Resolution)
    | LookUp(req: nat, active: Option<nat>)
    | WriteExtension(req: nat)
    | WriteVerdict(req: nat)

  /** The database may pick any active session for a look-up, but only an active one. */
  predicate CanDo(d: Desk, act: Act) {
    match act
    case Plain(_) => true
    case ReadConflict(req, cafe, id, _) =>
      req !in d.resolving && id in d.server.offline && d.server.offline[id].cafe == cafe && d.server.offline[id].state.Conflicted?
    case LookUp(req, active) =>
      && req in d.resolving && d.resolving[req].stage.Checked? && d.resolving[req].resolution.AcceptOffline?
      && IsSomeActive(d.server.sessions, d.resolving[req].event.pc, active)
    case WriteExtension(req) =>
      && req in d.resolving && Extends(d.resolving[req]) && !d.resolving[req].event.payload.minutes.Malformed?
      && d.resolving[req].stage.active.value.k < |d.server.sessions|
    case WriteVerdict(req) =>
      req in d.resolving && Settles(d.resolving[req]) && d.resolving[req].id in d.server.offline
  }

  function Execute(d: Desk, act: Act): Desk
    requires CanDo(d, act)
  {
    match act
    case Plain(op) => d.(server := Do(d.server, op))
    case ReadConflict(req, _, id, resolution) =>
      d.(resolving := d.resolving[req := Resolver(id, resolution, d.server.offline[id], Checked)])
    case LookUp(req, active) =>
      var seen := if active.None? then None else Some(Glimpse(active.value, d.server.sessions[active.value]));
      d.(resolving := d.resolving[req := d.resolving[req].(stage := Looked(seen))])
    case WriteExtension(req) =>
      var r := d.resolving[req];
      var k, seen := r.stage.active.value.k, r.stage.active.value.row;
      var row := Rewritten(d.server.sessions[k], seen, ResolvedMinutes(r.event.payload));
      d.(server := d.server.(sessions := d.server.sessions[k := row]), resolving := d.resolving[req := r.(stage := Written)])
    case WriteVerdict(req) =>
      var r := d.resolving[req];
      d.(server := d.server.(offline := d.server.offline[r.id := Settled(d.server.offline[r.id], r.resolution)]),
         resolving := d.resolving - {req})
  }

  predicate CanDoAll(d: Desk, acts: seq<Act>)
    decreases |acts|
  {
    |acts| == 0 || (CanDo(d, acts[0]) && CanDoAll(Execute(d, acts[0]), acts[1..]))
  }

  function ExecuteAll(d: Desk, acts: seq<Act>): Desk
    requires CanDoAll(d, acts)
    decreases |acts|
  {
    if |acts| == 0 then d else ExecuteAll(Execute(d, acts[0]), acts[1..])
  }

  lemma {:induction false} ExecuteNext(d: Desk, act: Act, acts: seq<Act>)
    requires CanDo(d, act) && CanDoAll(Execute(d, act), acts)
    ensures CanDoAll(d, [act] + acts) && ExecuteAll(d, [act] + acts) == ExecuteAll(Execute(d, act), acts)
  {
    hide CanDo, Execute;
    assert ([act] + acts)[1..] == acts;
  }

  lemma {:induction false} ExecuteNothing(d: Desk)
    ensures CanDoAll(d, []) && ExecuteAll(d, []) == d
  {
  }

  /** The statements of a resolution that goes through. */
  function ResolveActs(s: Server, req: nat, cafe: nat, id: nat, resolution: Resolution, active: Option<nat>): seq<Act>
    requires id in s.offline
  {
    [ReadConflict(req, cafe, id, resolution)]
    + ((if resolution.AcceptOffline? then [LookUp(req, active)] else [])
       + ((if resolution.AcceptOffline? && active.Some? && s.offline[id].etype.SessionExtended? then [WriteExtension(req)] else [])
          + [WriteVerdict(req)]))
  }

  /** Statements that nothing interrupts and nobody interleaves with are the whole request. */
  lemma {:induction false} QuietResolution(d: Desk, req: nat, cafe: nat, id: nat, resolution: Resolution, active: Option<nat>)
    requires req !in d.resolving && id in d.server.offline
    requires IsSomeActive(d.server.sessions, d.server.offline[id].pc, active)
    requires ResolveConflict(d.server, cafe, id, resolution, active).problem.None?
    ensures var acts := ResolveActs(d.server, req, cafe, id, resolution, active);
            && CanDoAll(d, acts)
            && ExecuteAll(d, acts) == d.(server := ResolveConflict(d.server, cafe, id, resolution, active).server)
  {
    hide CanDoAll, ExecuteAll;
    var d1 := Execute(d, ReadConflict(req, cafe, id, resolution));
    var d2 := if resolution.AcceptOffline? then Execute(d1, LookUp(req, active)) else d1;
    var writes := resolution.AcceptOffline? && active.Some? && d.server.offline[id].etype.SessionExtended?;
    var d3 := if writes then Execute(d2, WriteExtension(req)) else d2;
    var d4 := Execute(d3, WriteVerdict(req));
    assert d4 == d.(server := ResolveConflict(d.server, cafe, id, resolution, active).server);
    ExecuteNothing(d4);
    ExecuteNext(d3, WriteVerdict(req), []);
    assert [WriteVerdict(req)] + [] == [WriteVerdict(req)];
    var last := [WriteVerdict(req)];
    assert [] + last == last;
    if writes {
      ExecuteNext(d2, WriteExtension(req), last);
    }
    var rest := (if writes then [WriteExtension(req)] else []) + last;
    assert [] + rest == rest;
    if resolution.AcceptOffline? {
      ExecuteNext(d1, LookUp(req, active), rest);
    }
    ExecuteNext(d, ReadConflict(req, cafe, id, resolution), (if resolution.AcceptOffline? then [LookUp(req, active)] else []) + rest);
  }

  /** A resolution that stops before its verdict and is then repeated ends like one that went
      through, exactly if it had no minutes to add. */
  lemma {:induction false} RetryIsHarmlessExactly(s: Server, cafe: nat, id: nat, k: nat)
    requires id in s.offline && s.offline[id].cafe == cafe && s.offline[id].state.Conflicted?
    requires k < |s.sessions| && IsActiveOn(s.sessions[k], s.offline[id].pc)
    ensures var once := ResolveConflict(s, cafe, id, AcceptOffline, Some(k)).server;
            var half := once.(offline := s.offline);
            && |half.sessions| == |s.sessions|
            && (ResolveConflict(half, cafe, id, AcceptOffline, Some(k)).server == once <==>
                !(s.offline[id].etype.SessionExtended? && s.offline[id].payload.minutes.Number?
                  && s.offline[id].payload.minutes.n != 0))
  {
    var once := ResolveConflict(s, cafe, id, AcceptOffline, Some(k)).server;
    var again := ResolveConflict(once.(offline := s.offline), cafe, id, AcceptOffline, Some(k)).server;
    assert once.sessions[k].extended != s.sessions[k].extended ==> again.sessions[k].extended != once.sessions[k].extended;
  }

  /** Two members of staff read the same conflict; the one who keeps the server's state writes
      first, and the other one's verdict replaces the first. */
  lemma {:induction false} StaleVerdictOverwrites(d: Desk, cafe: nat, id: nat, one: nat, two: nat)
    requires id in d.server.offline && d.server.offline[id].cafe == cafe && d.server.offline[id].state.Conflicted?
    requires one != two && one !in d.resolving && two !in d.resolving
    ensures var read := Execute(d, ReadConflict(one, cafe, id, AcceptServer));
            CanDo(read, ReadConflict(two, cafe, id, Manual))
    ensures var both := Execute(Execute(d, ReadConflict(one, cafe, id, AcceptServer)), ReadConflict(two, cafe, id, Manual));
            && CanDo(both, WriteVerdict(one)) && Execute(both, WriteVerdict(one)).server.offline[id].state.Duplicate?
            && CanDo(Execute(both, WriteVerdict(one)), WriteVerdict(two))
            && Execute(Execute(both, WriteVerdict(one)), WriteVerdict(two)).server.offline[id].state.Accepted?
  {
  }

  /** A resolution's write adds its minutes to the session exactly if nobody changed the
      session's minutes since it was looked up; otherwise it undoes what was changed. */
  lemma {:induction false} WriteAddsExactly(d: Desk, req: nat)
    requires CanDo(d, WriteExtension(req))
    ensures var r := d.resolving[req];
            var k, seen := r.stage.active.value.k, r.stage.active.value.row;
            var was, after := d.server.sessions[k], Execute(d, WriteExtension(req)).server.sessions[k];
            && after.extended == was.extended + ResolvedMinutes(r.event.payload) - (was.extended - seen.extended)
            && (after.extended == was.extended + ResolvedMinutes(r.event.payload) <==> was.extended == seen.extended)
            && after.status == was.status && after.price == was.price
  {
  }

  /** Staff sell more minutes between a resolution's look-up and its write: the minutes vanish from
      the session, while its price and the log keep what was charged for them. */
  lemma {:induction false} BoughtMinutesVanish(d: Desk, req: nat, cafe: nat, k: nat, minutes: int, tier: Option<nat>,
                                               rules: seq<Rule>, now: int)
    requires req in d.resolving && d.resolving[req].stage.Checked? && d.resolving[req].resolution.AcceptOffline?
    requires d.resolving[req].event.etype.SessionExtended? && d.resolving[req].event.payload.minutes.Number?
    requires k < |d.server.sessions| && IsActiveOn(d.server.sessions[k], d.resolving[req].event.pc)
    requires d.server.sessions[k].cafe == cafe && ValidMinutes(minutes)
    ensures var acts := [LookUp(req, Some(k))] + ([Plain(ExtendOp(cafe, k, minutes, tier, rules, now))] + ([WriteExtension(req)] + []));
            && CanDoAll(d, acts) && |ExecuteAll(d, acts).server.sessions| == |d.server.sessions|
            && var n, was, row := d.resolving[req].event.payload.minutes.n, d.server.sessions[k], ExecuteAll(d, acts).server.sessions[k];
               && row.extended == was.extended + n && row.expiresAt == was.expiresAt + n * MINUTE_MS
               && row.price == Price(rules, was.startedAt, was.planned + was.extended + minutes, tier).amount
               && ExecuteAll(d, acts).server.log
                  == d.server.log + [SessionEvent(k, Extension(minutes, Some(row.price - was.price)), now)]
  {
    hide CanDoAll, ExecuteAll, Price;
    var look, sale, write := LookUp(req, Some(k)), Plain(ExtendOp(cafe, k, minutes, tier, rules, now)), WriteExtension(req);
    var d1 := Execute(d, look);
    var d2 := Execute(d1, sale);
    assert d2.server.sessions[k] == ExtendedRow(d.server.sessions[k], minutes, tier, rules);
    var d3 := Execute(d2, write);
    ExecuteNothing(d3);
    ExecuteNext(d2, write, []);
    ExecuteNext(d1, sale, [write] + []);
    ExecuteNext(d, look, [sale] + ([write] + []));
  }

  // ---- What one request does ---------------------------------------------------

  /** A refused request leaves every table as it was. */
  lemma {:induction false} RefusalChangesNothing(
    s: Server, cafe: nat, id: nat, input: StartInput, pc: Option<PcRow>, minutes: int, tier: Option<nat>, t: Transition,
    resolution: Resolution, active: Option<nat>, rules: seq<Rule>, now: int)
    requires active.Some? ==> active.value < |s.sessions|
    ensures StartSession(s, cafe, input, pc, rules, now).problem.Some? ==> StartSession(s, cafe, input, pc, rules, now).server == s
    ensures ExtendSession(s, cafe, id, minutes, tier, rules, now).problem.Some? ==>
              ExtendSession(s, cafe, id, minutes, tier, rules, now).server == s
    ensures ChangeSession(s, cafe, id, t, now).problem.Some? ==> ChangeSession(s, cafe, id, t, now).server == s
    ensures ResolveConflict(s, cafe, id, resolution, active).problem.Some? ==>
              ResolveConflict(s, cafe, id, resolution, active).server == s
  {
    hide Price;
  }

  /** Pausing and resuming an active session gives back exactly the same session table. */
  lemma {:induction false} PauseResumeRoundTrip(s: Server, cafe: nat, id: nat, now: int, later: int)
    requires Exists(s.sessions, cafe, id)
    ensures var paused := ChangeSession(s, cafe, id, Pause, now);
            var resumed := ChangeSession(paused.server, cafe, id, Resume, later);
            && (paused.problem.None? <==> s.sessions[id].status.Active?)
            && (paused.problem.None? ==> resumed.problem.None? && resumed.server.sessions == s.sessions)
  {
    var paused := ChangeSession(s, cafe, id, Pause, now);
    var resumed := ChangeSession(paused.server, cafe, id, Resume, later);
    if paused.problem.None? {
      assert resumed.server.sessions[id] == s.sessions[id];
      assert resumed.server.sessions == s.sessions;
    }
  }

  /** After an end or a cancellation, every further transition of the session is refused. */
  lemma {:induction false} ClosedRefusesAll(s: Server, cafe: nat, id: nat, t: Transition, again: Transition, now: int, later: int)
    requires t.End? || t.Cancel?
    requires ChangeSession(s, cafe, id, t, now).problem.None?
    ensures var closed := ChangeSession(s, cafe, id, t, now).server;
            && closed.sessions[id].status == (if t.End? then Ended else Cancelled) && closed.sessions[id].endedAt == Some(now)
            && ChangeSession(closed, cafe, id, again, later) == Response(closed, Some(SessionAlreadyTerminal))
  {
  }

  /** Retrying a start with its key changes nothing and is not refused, whatever else the retry
      says and whatever happened to the session in between. */
  lemma {:induction false} StartRetryIsNoOp(d: Desk, cafe: nat, input: StartInput, pc: Option<PcRow>, rules: seq<Rule>, now: int,
                                            acts: seq<Act>, again: StartInput, row: Option<PcRow>, later: int)
    requires input.key.Some? && StartSession(d.server, cafe, input, pc, rules, now).problem.None?
    requires CanDoAll(Execute(d, Plain(StartOp(cafe, input, pc, rules, now))), acts)
    requires again.key == input.key && ValidMinutes(again.planned) && !again.origin.SuperadminOffline?
    ensures var u := ExecuteAll(Execute(d, Plain(StartOp(cafe, input, pc, rules, now))), acts).server;
            StartSession(u, cafe, again, row, rules, later) == Response(u, None)
  {
    hide Price;
    var t := Execute(d, Plain(StartOp(cafe, input, pc, rules, now)));
    assert HasKey(t.server.sessions, input.key) by {
      if !HasKey(d.server.sessions, input.key) {
        assert t.server.sessions[|d.server.sessions|].idempotencyKey == input.key;
      }
    }
    KeyStays(t, acts, input.key);
  }

  /** A start changes the session table exactly if it is well formed, not a retry, and its PC
      belongs to the cafe, is in service and free; then one session is added, on schedule, with its
      bill, at the price that the log records. */
  lemma {:induction false} StartAdmission(s: Server, cafe: nat, input: StartInput, pc: Option<PcRow>, rules: seq<Rule>, now: int)
    ensures var t := StartSession(s, cafe, input, pc, rules, now).server;
            && (t.sessions != s.sessions <==>
                  && 5 <= input.planned <= 1440 && !input.origin.SuperadminOffline?
                  && (input.key.Some? ==> forall i :: 0 <= i < |s.sessions| ==> s.sessions[i].idempotencyKey != input.key)
                  && pc.Some? && pc.value.cafe == cafe && (pc.value.status.Online? || pc.value.status.Offline?)
                  && forall i :: 0 <= i < |s.sessions| && s.sessions[i].pc == input.pc ==>
                       !s.sessions[i].status.Active? && !s.sessions[i].status.Scheduled?)
            && (t.sessions == s.sessions ==> t == s)
            && (t.sessions != s.sessions ==>
                  && |t.sessions| == |s.sessions| + 1 && t.sessions[..|s.sessions|] == s.sessions && t.offline == s.offline
                  && var row := t.sessions[|s.sessions|];
                     && row.pc == input.pc && row.cafe == cafe && row.status.Active? && row.startedAt == now && row.endedAt.None?
                     && row.planned == input.planned && row.extended == 0 && row.expiresAt == now + input.planned * 60_000
                     && row.idempotencyKey == input.key && row.origin == input.origin
                     && PriceResult(row.price, row.breakdown) == Price(rules, now, input.planned, pc.value.tier)
                     && t.log == s.log + [SessionEvent(|s.sessions|, Started(input.planned, Some(row.price)), now)])
  {
    hide Price;
    var t := StartSession(s, cafe, input, pc, rules, now).server;
    assert t.sessions != s.sessions <==> |t.sessions| == |s.sessions| + 1;
  }

  /** Of the reasons to refuse a start the caller is told the first that holds; a retry is not refused. */
  lemma {:induction false} StartRefusal(s: Server, cafe: nat, input: StartInput, pc: Option<PcRow>, rules: seq<Rule>, now: int)
    ensures var problem := StartSession(s, cafe, input, pc, rules, now).problem;
            var malformed := input.planned < 5 || input.planned > 1440 || input.origin.SuperadminOffline?;
            var retry := input.key.Some? && exists i :: 0 <= i < |s.sessions| && s.sessions[i].idempotencyKey == input.key;
            var unknown := pc.None? || pc.value.cafe != cafe;
            && (problem == Some(InvalidRequest) <==> malformed)
            && (problem == Some(PcNotFound) <==> !malformed && !retry && unknown)
            && (problem == Some(PcNotAvailable) <==>
                  !malformed && !retry && !unknown && (pc.value.status.Disabled? || pc.value.status.Maintenance?))
            && (problem == Some(PcBusy) ==>
                  exists i :: 0 <= i < |s.sessions| && s.sessions[i].pc == input.pc
                              && (s.sessions[i].status.Active? || s.sessions[i].status.Scheduled?))
            && (problem.Some? ==> problem.value.InvalidRequest? || problem.value.PcNotFound?
                                  || problem.value.PcNotAvailable? || problem.value.PcBusy?)
            && (problem.None? <==> (retry && !malformed) || StartSession(s, cafe, input, pc, rules, now).server.sessions != s.sessions)
  {
    hide Price;
    var t := StartSession(s, cafe, input, pc, rules, now).server;
    assert t.sessions != s.sessions <==> |t.sessions| == |s.sessions| + 1;
  }

  /** An extension goes through exactly for 5 to 1440 minutes and an active session of the cafe. It
      moves the expiry, prices all minutes from the start anew, and logs the difference. */
  lemma {:induction false} ExtendAdmission(s: Server, cafe: nat, id: nat, minutes: int, tier: Option<nat>, rules: seq<Rule>, now: int)
    ensures var r := ExtendSession(s, cafe, id, minutes, tier, rules, now);
            var found := id < |s.sessions| && s.sessions[id].cafe == cafe;
            && (r.problem == Some(InvalidRequest) <==> minutes < 5 || minutes > 1440)
            && (r.problem == Some(SessionNotFound) <==> 5 <= minutes <= 1440 && !found)
            && (r.problem == Some(SessionNotActive) <==> 5 <= minutes <= 1440 && found && s.sessions[id].status != Active)
            && (r.problem.None? <==> 5 <= minutes <= 1440 && found && s.sessions[id].status == Active)
            && (r.problem.None? ==>
                  && |r.server.sessions| == |s.sessions| && r.server.offline == s.offline
                  && (forall i :: 0 <= i < |s.sessions| && i != id ==> r.server.sessions[i] == s.sessions[i])
                  && var was, row := s.sessions[id], r.server.sessions[id];
                     && row.expiresAt == was.expiresAt + minutes * 60_000 && row.extended == was.extended + minutes
                     && PriceResult(row.price, row.breakdown) == Price(rules, was.startedAt, was.planned + was.extended + minutes, tier)
                     && row.(expiresAt := was.expiresAt, extended := was.extended, price := was.price, breakdown := was.breakdown) == was
                     && r.server.log == s.log + [SessionEvent(id, Extension(minutes, Some(row.price - was.price)), now)])
  {
    hide Price;
  }

  /** Which transitions a session of the cafe allows: whatever is not over can be ended or cancelled,
      what is active can be paused, what is paused can be resumed. Only the status changes, and the
      end time if it is over; the log says which transition it was. */
  lemma {:induction false} TransitionAdmission(s: Server, cafe: nat, id: nat, t: Transition, now: int)
    ensures var r := ChangeSession(s, cafe, id, t, now);
            var found := id < |s.sessions| && s.sessions[id].cafe == cafe;
            && (r.problem == Some(SessionNotFound) <==> !found)
            && (found ==>
                  var was := s.sessions[id];
                  var over := was.status == Ended || was.status == Cancelled || was.status == Expired;
                  && (r.problem == Some(SessionAlreadyTerminal) <==> over)
                  && (r.problem == Some(SessionNotActive) <==> !over && t == Pause && was.status != Active)
                  && (r.problem == Some(SessionNotPaused) <==> !over && t == Resume && was.status != Paused)
                  && (r.problem.None? <==> !over && (t == Pause ==> was.status == Active) && (t == Resume ==> was.status == Paused))
                  && (r.problem.None? ==>
                        && |r.server.sessions| == |s.sessions| && r.server.offline == s.offline
                        && (forall i :: 0 <= i < |s.sessions| && i != id ==> r.server.sessions[i] == s.sessions[i])
                        && |r.server.log| == |s.log| + 1 && r.server.log[..|s.log|] == s.log
                        && var row, logged := r.server.sessions[id], r.server.log[|s.log|];
                           && logged.session == id && logged.at == now
                           && (row.status == Ended <==> t == End) && (row.status == Cancelled <==> t == Cancel)
                           && (row.status == Paused <==> t == Pause) && (row.status == Active <==> t == Resume)
                           && (logged.what == EndOf <==> t == End) && (logged.what == CancelOf <==> t == Cancel)
                           && (logged.what == PauseOf <==> t == Pause) && (logged.what == ResumeOf <==> t == Resume)
                           && row.endedAt == (if t == End || t == Cancel then Some(now) else was.endedAt)
                           && row.(status := was.status, endedAt := was.endedAt) == was))
  {
  }

  /** What a resolution does to a conflicted event: it settles the verdict, and it touches the
      session table only to apply an extension, with the minutes unclamped and unpriced. In
      particular it never starts or ends a session and never writes to the session log. */
  lemma {:induction false} ResolutionOutcome(s: Server, cafe: nat, id: nat, resolution: Resolution, active: Option<nat>)
    requires id in s.offline && s.offline[id].cafe == cafe && s.offline[id].state.Conflicted?
    requires IsSomeActive(s.sessions, s.offline[id].pc, active)
    ensures var r, row := ResolveConflict(s, cafe, id, resolution, active), s.offline[id];
            var applies := resolution.AcceptOffline? && row.etype.SessionExtended? && active.Some?;
            && (r.problem.Some? <==> applies && row.payload.minutes.Malformed?)
            && (r.problem.None? ==>
                  && r.server.offline == s.offline[id := row.(
                       state := if resolution.AcceptServer? then Duplicate else Accepted,
                       reason := if resolution.AcceptOffline? then None else row.reason)]
                  && (!applies || row.payload.minutes.Missing? ==> r.server.sessions == s.sessions)
                  && (applies && row.payload.minutes.Number? ==>
                        && |r.server.sessions| == |s.sessions|
                        && (forall i :: 0 <= i < |s.sessions| && i != active.value ==> r.server.sessions[i] == s.sessions[i])
                        && var was, now := s.sessions[active.value], r.server.sessions[active.value];
                           && now.extended - was.extended == row.payload.minutes.n
                           && now.expiresAt - was.expiresAt == row.payload.minutes.n * MINUTE_MS
                           && now.(expiresAt := was.expiresAt, extended := was.extended) == was))
            && r.server.log == s.log
  {
    hide Price;
    if active.Some? {
      var was := s.sessions[active.value];
      assert ExtendUnpriced(was, 0) == was;
    }
  }

  /** A resolution is refused for an event that the cafe does not have, for one that is not conflicted,
      and to apply minutes that are not a number. */
  lemma {:induction false} ResolutionRefusal(s: Server, cafe: nat, id: nat, resolution: Resolution, active: Option<nat>)
    requires id in s.offline ==> IsSomeActive(s.sessions, s.offline[id].pc, active)
    requires active.Some? ==> active.value < |s.sessions|
    ensures var problem := ResolveConflict(s, cafe, id, resolution, active).problem;
            var found := id in s.offline && s.offline[id].cafe == cafe;
            && (problem == Some(EventNotFound) <==> !found)
            && (problem == Some(NotConflicted) <==> found && s.offline[id].state != Conflicted)
            && (problem == Some(InvalidTimeValue) <==>
                  && found && s.offline[id].state == Conflicted && resolution == AcceptOffline
                  && s.offline[id].etype == SessionExtended && s.offline[id].payload.minutes == Malformed
                  && exists i :: 0 <= i < |s.sessions| && s.sessions[i].pc == s.offline[id].pc && s.sessions[i].status == Active)
            && (problem.Some? ==> problem.value.EventNotFound? || problem.value.NotConflicted? || problem.value.InvalidTimeValue?)
  {
  }

  lemma {:induction false} StepKeepsKey(s: Server, op: Op, key: Option<string>)
    requires HasKey(s.sessions, key)
    ensures HasKey(Do(s, op).sessions, key)
  {
    hide Price;
    var i :| 0 <= i < |s.sessions| && s.sessions[i].idempotencyKey == key;
    assert Do(s, op).sessions[i].idempotencyKey == key;
  }

  lemma {:induction false} ActKeepsKey(d: Desk, act: Act, key: Option<string>)
    requires CanDo(d, act) && HasKey(d.server.sessions, key)
    ensures HasKey(Execute(d, act).server.sessions, key)
  {
    hide Do;
    if act.Plain? {
      StepKeepsKey(d.server, act.op, key);
    } else {
      var i :| 0 <= i < |d.server.sessions| && d.server.sessions[i].idempotencyKey == key;
      assert Execute(d, act).server.sessions[i].idempotencyKey == key;
    }
  }

  lemma {:induction false} KeyStays(d: Desk, acts: seq<Act>, key: Option<string>)
    requires CanDoAll(d, acts) && HasKey(d.server.sessions, key)
    ensures HasKey(ExecuteAll(d, acts).server.sessions, key)
    decreases |acts|
  {
    hide CanDo, Execute, HasKey;
    if |acts| > 0 {
      ActKeepsKey(d, acts[0], key);
      KeyStays(Execute(d, acts[0]), acts[1..], key);
    }
  }

  lemma {:induction false} ActKeepsKnown(d: Desk, act: Act, pc: nat, evt: SyncEvent)
    requires CanDo(d, act) && Known(d.server.offline, pc, evt)
    ensures Known(Execute(d, act).server.offline, pc, evt)
  {
    hide Price, Process, Known;
    match act
    case Plain(op) =>
      if op.SyncOp? {
        KnownStays(d.server, evt, pc, op.evt, op.ctx, op.now);
      } else {
        assert Execute(d, act).server.offline == d.server.offline;
      }
    case WriteVerdict(req) =>
      var r := d.resolving[req];
      SettledKeepsKnown(d.server.offline, r.id, r.resolution, pc, evt);
    case _ =>
  }

  lemma {:induction false} SettledKeepsKnown(offline: map<nat, OfflineRow>, id: nat, resolution: Resolution, pc: nat, evt: SyncEvent)
    requires id in offline && Known(offline, pc, evt)
    ensures Known(offline[id := Settled(offline[id], resolution)], pc, evt)
  {
    var after := offline[id := Settled(offline[id], resolution)];
    if evt.id !in offline {
      var other :| other in offline && offline[other].pc == pc && offline[other].seqNo == evt.seqNo;
      assert other in after && after[other].pc == pc && after[other].seqNo == evt.seqNo;
    }
  }

  lemma {:induction false} KnownForever(d: Desk, acts: seq<Act>, pc: nat, evt: SyncEvent)
    requires CanDoAll(d, acts) && Known(d.server.offline, pc, evt)
    ensures Known(ExecuteAll(d, acts).server.offline, pc, evt)
    decreases |acts|
  {
    hide CanDo, Execute, Known;
    if |acts| > 0 {
      ActKeepsKnown(d, acts[0], pc, evt);
      KnownForever(Execute(d, acts[0]), acts[1..], pc, evt);
    }
  }

  /** After any run of transactions and resolutions in between, replaying an event changes
      nothing and is answered `duplicate`. */
  lemma {:induction false} LaterReplayIsNoOp(d: Desk, evt: SyncEvent, ctx: Context, now: int,
                                             acts: seq<Act>, again: Context, later: int)
    requires CanDoAll(Execute(d, Plain(SyncOp(evt, ctx, now))), acts) && again.pc == ctx.pc
    ensures var u := ExecuteAll(Execute(d, Plain(SyncOp(evt, ctx, now))), acts).server;
            Process(u, evt, again, later) == Answer(u, SyncResult(evt.id, evt.seqNo, Duplicate, None, None))
  {
    hide CanDoAll, ExecuteAll, Price;
    ProcessRecords(d.server, evt, ctx, now);
    KnownForever(Execute(d, Plain(SyncOp(evt, ctx, now))), acts, ctx.pc, evt);
  }

  /** Each overdue session is logged once, with the expiry it had, and no other one is. */
  ghost predicate LogsOverdue(sessions: seq<Session>, now: int, more: seq<SessionEvent>) {
    && (forall i :: 0 <= i < |sessions| && sessions[i].status == Active && sessions[i].expiresAt < now ==>
          SessionEvent(i, ExpiryOf(sessions[i].expiresAt), now) in more)
    && (forall k :: 0 <= k < |more| ==>
          && more[k].session < |sessions|
          && sessions[more[k].session].status == Active && sessions[more[k].session].expiresAt < now)
    && (forall k, l :: 0 <= k < l < |more| ==> more[k].session != more[l].session)
  }

  /** A sweep expires exactly the active sessions past their expiry, as of now, and logs each of them
      once, with the expiry it had; nothing else changes. No active session past its expiry remains,
      and sweeping again at the same time finds nothing more. */
  lemma {:induction false} SweepSettles(s: Server, now: int)
    ensures var t := Sweep(s, now);
            && |t.sessions| == |s.sessions| && t.offline == s.offline
            && (forall i :: 0 <= i < |s.sessions| ==>
                  && (t.sessions[i].status == Active ==> now <= t.sessions[i].expiresAt)
                  && t.sessions[i] == if s.sessions[i].status == Active && s.sessions[i].expiresAt < now
                                      then s.sessions[i].(status := Expired, endedAt := Some(now)) else s.sessions[i])
            && |s.log| <= |t.log| && t.log[..|s.log|] == s.log && LogsOverdue(s.sessions, now, t.log[|s.log|..])
            && Sweep(t, now) == t
  {
    var t := Sweep(s, now);
    SweepLogs(s, now);
    hide LogsOverdue, ExpiryLog;
    assert t.log[|s.log|..] == ExpiryLog(s.sessions, DueIds(s.sessions, now), now);
    SweepFindsNothing(t, now);
  }

  lemma {:induction false} SweepFindsNothing(s: Server, now: int)
    requires forall i :: 0 <= i < |s.sessions| && s.sessions[i].status == Active ==> now <= s.sessions[i].expiresAt
    ensures Sweep(s, now) == s
  {
    NothingDue(s.sessions, now);
    assert SweptRows(s.sessions, now) == s.sessions;
    assert s.log + [] == s.log;
  }

  lemma {:induction false} SweepLogs(s: Server, now: int)
    ensures LogsOverdue(s.sessions, now, ExpiryLog(s.sessions, DueIds(s.sessions, now), now))
  {
    var ids := DueIds(s.sessions, now);
    DueIdsExactly(s.sessions, now);
    hide DueIds, ExpiryLog;
    var more := ExpiryLog(s.sessions, ids, now);
    assert forall k :: 0 <= k < |ids| ==> more[k].session == ids[k];
    forall i: nat | i in ids
      ensures SessionEvent(i, ExpiryOf(s.sessions[i].expiresAt), now) in more
    {
      var k :| 0 <= k < |ids| && ids[k] == i;
      assert more[k] == SessionEvent(i, ExpiryOf(s.sessions[i].expiresAt), now);
    }
  }

  predicate Ascending(ids: seq<nat>) {
    forall k, l :: 0 <= k < l < |ids| ==> ids[k] < ids[l]
  }

  lemma {:induction false} AscendingAppend(ids: seq<nat>, id: nat)
    requires Ascending(ids) && forall k :: 0 <= k < |ids| ==> ids[k] < id
    ensures Ascending(ids + [id])
  {
  }

  /** Each overdue session's id is returned once, in the order of the table. */
  lemma {:induction false} DueIdsExactly(sessions: seq<Session>, now: int)
    ensures forall i: nat :: i in DueIds(sessions, now) <==>
                             i < |sessions| && sessions[i].status == Active && sessions[i].expiresAt < now
    ensures Ascending(DueIds(sessions, now))
  {
    if |sessions| > 0 {
      var front := sessions[..|sessions| - 1];
      DueIdsExactly(front, now);
      AscendingAppend(DueIds(front, now), |front|);
      assert DueIds(front, now) + [] == DueIds(front, now);
    }
  }

  lemma {:induction false} NothingDue(sessions: seq<Session>, now: int)
    requires forall i :: 0 <= i < |sessions| ==> !Due(sessions[i], now)
    ensures DueIds(sessions, now) == []
  {
    if |sessions| > 0 {
      NothingDue(sessions[..|sessions| - 1], now);
    }
  }

  // ---- Terminal rows never change ----------------------------------------------

  /** `t` has all rows of `s`; those that were ended, cancelled or expired are the same. */
  ghost predicate KeepsTerminal(s: Server, t: Server) {
    && |s.sessions| <= |t.sessions|
    && forall i :: 0 <= i < |s.sessions| && s.sessions[i].status.Terminal() ==> t.sessions[i] == s.sessions[i]
  }

  lemma {:induction false} StepKeepsTerminal(s: Server, op: Op)
    ensures KeepsTerminal(s, Do(s, op))
  {
    hide Price;
  }

  /** A resolution is about to write a session that has been closed since it was looked up, and
      the write is not what the row says already. */
  predicate LateWrite(d: Desk, act: Act) {
    && act.WriteExtension? && CanDo(d, act)
    && var r := d.resolving[act.req];
       var row := d.server.sessions[r.stage.active.value.k];
       row.status.Terminal() && Rewritten(row, r.stage.active.value.row, ResolvedMinutes(r.event.payload)) != row
  }

  lemma {:induction false} ActKeepsTerminal(d: Desk, act: Act)
    requires CanDo(d, act)
    ensures KeepsTerminal(d.server, Execute(d, act).server) <==> !LateWrite(d, act)
  {
    hide Do;
    if act.Plain? {
      StepKeepsTerminal(d.server, act.op);
    }
  }

  ghost predicate TerminalKept(d: Desk, acts: seq<Act>)
    requires CanDoAll(d, acts)
    decreases |acts|
  {
    |acts| > 0 ==> KeepsTerminal(d.server, Execute(d, acts[0]).server) && TerminalKept(Execute(d, acts[0]), acts[1..])
  }

  predicate NoLateWrite(d: Desk, acts: seq<Act>)
    requires CanDoAll(d, acts)
    decreases |acts|
  {
    |acts| > 0 ==> !LateWrite(d, acts[0]) && NoLateWrite(Execute(d, acts[0]), acts[1..])
  }

  /** In a run no ended, cancelled or expired session ever changes again, if and only if no
      resolution writes to a session that was closed since it looked. */
  lemma {:induction false} TerminalIsForever(d: Desk, acts: seq<Act>)
    requires CanDoAll(d, acts)
    ensures TerminalKept(d, acts) <==> NoLateWrite(d, acts)
    ensures NoLateWrite(d, acts) ==> KeepsTerminal(d.server, ExecuteAll(d, acts).server)
    decreases |acts|
  {
    hide CanDo, Execute, LateWrite;
    if |acts| > 0 {
      ActKeepsTerminal(d, acts[0]);
      TerminalIsForever(Execute(d, acts[0]), acts[1..]);
    }
  }

  /** Ending a session between a resolution's look-up and its write changes the ended session. */
  lemma {:induction false} LateWriteChangesEnded(d: Desk, req: nat, cafe: nat, now: int)
    requires CanDo(d, WriteExtension(req)) && ResolvedMinutes(d.resolving[req].event.payload) != 0
    requires var seen := d.resolving[req].stage.active.value;
             d.server.sessions[seen.k] == seen.row && seen.row.cafe == cafe
    ensures var k := d.resolving[req].stage.active.value.k;
            var ended := Execute(d, Plain(ChangeOp(cafe, k, End, now)));
            && CanDo(ended, WriteExtension(req)) && ended.server.sessions[k].status == Ended
            && var late := Execute(ended, WriteExtension(req));
               late.server.sessions[k].status == Ended
               && late.server.sessions[k].extended != ended.server.sessions[k].extended
  {
    hide Price;
  }

  // ---- Expiry is start plus minutes --------------------------------------------

  predicate OnSchedule(row: Session) {
    row.expiresAt == row.startedAt + (row.planned + row.extended) * MINUTE_MS
  }

  /** Ingested after it had run out: closed at its due time and stamped with the ingestion time. */
  predicate IngestedLate(row: Session) {
    && row.origin.SuperadminOffline? && row.status.Expired? && row.extended == 0
    && row.endedAt == Some(row.startedAt + row.planned * MINUTE_MS)
    && row.startedAt + row.planned * MINUTE_MS <= row.expiresAt
  }

  ghost predicate AllOnSchedule(s: Server) {
    forall i :: 0 <= i < |s.sessions| ==> OnSchedule(s.sessions[i]) || IngestedLate(s.sessions[i])
  }

  lemma {:induction false} StepKeepsSchedule(s: Server, op: Op)
    requires AllOnSchedule(s)
    ensures AllOnSchedule(Do(s, op))
  {
    hide Price;
  }

  /** Rows stay, with the start and the planned minutes they were sold with. */
  lemma {:induction false} StepKeepsSale(s: Server, op: Op)
    ensures |s.sessions| <= |Do(s, op).sessions|
    ensures forall i :: 0 <= i < |s.sessions| ==>
              var row := Do(s, op).sessions[i];
              row.startedAt == s.sessions[i].startedAt && row.planned == s.sessions[i].planned && row.pc == s.sessions[i].pc
  {
    hide Price;
  }

  /** What a resolution in flight has seen is an earlier state of a row, on schedule. */
  ghost predicate SawOnSchedule(sessions: seq<Session>, r: Resolver) {
    r.stage.Looked? && r.stage.active.Some? ==>
      var seen := r.stage.active.value;
      && seen.k < |sessions| && OnSchedule(seen.row)
      && seen.row.startedAt == sessions[seen.k].startedAt && seen.row.planned == sessions[seen.k].planned
  }

  ghost predicate DeskOnSchedule(d: Desk) {
    AllOnSchedule(d.server) && forall req :: req in d.resolving ==> SawOnSchedule(d.server.sessions, d.resolving[req])
  }

  lemma {:induction false} ActKeepsSchedule(d: Desk, act: Act)
    requires CanDo(d, act) && DeskOnSchedule(d)
    ensures DeskOnSchedule(Execute(d, act))
  {
    hide Do;
    if act.Plain? {
      StepKeepsSchedule(d.server, act.op);
      StepKeepsSale(d.server, act.op);
    }
  }

  /** Over every run, whatever mix of online and offline extensions and interleaved resolutions,
      a session expires at its start plus its planned and extended minutes, unless it was
      ingested after that. */
  lemma {:induction false} ScheduleHolds(d: Desk, acts: seq<Act>)
    requires CanDoAll(d, acts) && DeskOnSchedule(d)
    ensures DeskOnSchedule(ExecuteAll(d, acts))
    decreases |acts|
  {
    hide CanDo, Execute, DeskOnSchedule;
    if |acts| > 0 {
      ActKeepsSchedule(d, acts[0]);
      ScheduleHolds(Execute(d, acts[0]), acts[1..]);
    }
  }

  // ---- One active session per PC -----------------------------------------------

  ghost predicate OneActive(s: Server) {
    forall i, j :: 0 <= i < j < |s.sessions| && s.sessions[i].status.Active? && s.sessions[j].status.Active?
                   ==> s.sessions[i].pc != s.sessions[j].pc
  }

  /** A resume that would go through while another session of that PC is active. */
  predicate CollidingResume(s: Server, op: Op) {
    && op.ChangeOp? && op.t.Resume?
    && Exists(s.sessions, op.cafe, op.id) && s.sessions[op.id].status.Paused?
    && exists i :: 0 <= i < |s.sessions| && i != op.id && IsActiveOn(s.sessions[i], s.sessions[op.id].pc)
  }

  /** Every transaction keeps one active session per PC, except exactly a resume that does not
      look for another one. */
  lemma {:induction false} StepKeepsOneActive(s: Server, op: Op)
    requires OneActive(s)
    ensures OneActive(Do(s, op)) <==> !CollidingResume(s, op)
  {
    hide Price;
    if op.ChangeOp? {
      ResumeKeepsOneActive(s, op);
    }
  }

  lemma {:induction false} ResumeKeepsOneActive(s: Server, op: Op)
    requires op.ChangeOp? && OneActive(s)
    ensures OneActive(Do(s, op)) <==> !CollidingResume(s, op)
  {
    if CollidingResume(s, op) {
      var i :| 0 <= i < |s.sessions| && i != op.id && IsActiveOn(s.sessions[i], s.sessions[op.id].pc);
      var rows := Do(s, op).sessions;
      var lo, hi := if i < op.id then i else op.id, if i < op.id then op.id else i;
      assert rows[lo].status.Active? && rows[hi].status.Active? && rows[lo].pc == rows[hi].pc;
    }
  }

  predicate CollidingAct(d: Desk, act: Act) {
    act.Plain? && CollidingResume(d.server, act.op)
  }

  lemma {:induction false} ActKeepsOneActive(d: Desk, act: Act)
    requires CanDo(d, act) && OneActive(d.server)
    ensures OneActive(Execute(d, act).server) <==> !CollidingAct(d, act)
  {
    hide Do, CollidingResume;
    if act.Plain? {
      StepKeepsOneActive(d.server, act.op);
    }
  }

  ghost predicate OneActiveThroughout(d: Desk, acts: seq<Act>)
    requires CanDoAll(d, acts)
    decreases |acts|
  {
    OneActive(d.server) && (|acts| > 0 ==> OneActiveThroughout(Execute(d, acts[0]), acts[1..]))
  }

  predicate NoCollidingResume(d: Desk, acts: seq<Act>)
    requires CanDoAll(d, acts)
    decreases |acts|
  {
    |acts| > 0 ==> !CollidingAct(d, acts[0]) && NoCollidingResume(Execute(d, acts[0]), acts[1..])
  }

  /** A run has at most one active session per PC in all of its states if and only if each of
      its resumes finds no other active session. */
  lemma {:induction false} OneActiveExactly(d: Desk, acts: seq<Act>)
    requires CanDoAll(d, acts) && OneActive(d.server)
    ensures OneActiveThroughout(d, acts) <==> NoCollidingResume(d, acts)
    decreases |acts|
  {
    hide CanDo, Execute, OneActive, CollidingAct;
    if |acts| > 0 {
      ActKeepsOneActive(d, acts[0]);
      if OneActive(Execute(d, acts[0]).server) {
        OneActiveExactly(Execute(d, acts[0]), acts[1..]);
      }
    }
  }

  /** Pausing one session, starting another and resuming the first leaves two active ones. */
  lemma {:induction false} PauseStartResumeCollides(pc: nat, cafe: nat, row: PcRow, rules: seq<Rule>)
    requires row.cafe == cafe && row.status.Online?
    ensures var start := Plain(StartOp(cafe, StartInput(pc, 60, Admin, None), Some(row), rules, 0));
            var acts := [start] + ([Plain(ChangeOp(cafe, 0, Pause, 1))] + ([start] + ([Plain(ChangeOp(cafe, 0, Resume, 2))] + [])));
            CanDoAll(EmptyDesk(), acts) && !OneActive(ExecuteAll(EmptyDesk(), acts).server)
  {
    hide Price, CanDoAll, ExecuteAll;
    var input := StartInput(pc, 60, Admin, None);
    var start := Plain(StartOp(cafe, input, Some(row), rules, 0));
    var pause, resume := Plain(ChangeOp(cafe, 0, Pause, 1)), Plain(ChangeOp(cafe, 0, Resume, 2));
    var d1 := Execute(EmptyDesk(), start);
    assert d1.server.sessions == [OnlineRow(cafe, input, row.tier, rules, 0)];
    var d2 := Execute(d1, pause);
    assert d2.server.sessions == [d1.server.sessions[0].(status := Paused)];
    var d3 := Execute(d2, start);
    assert d3.server.sessions == d2.server.sessions + d1.server.sessions;
    var d4 := Execute(d3, resume);
    assert d4.server.sessions[0].status.Active? && d4.server.sessions[1].status.Active?;
    assert d4.server.sessions[0].pc == d4.server.sessions[1].pc;
    ExecuteNothing(d4);
    ExecuteNext(d3, resume, []);
    ExecuteNext(d2, start, [resume] + []);
    ExecuteNext(d1, pause, [start] + ([resume] + []));
    ExecuteNext(EmptyDesk(), start, [pause] + ([start] + ([resume] + [])));
  }

  function EmptyDesk(): Desk {
    Desk(Server([], [], map[]), map[])
  }

  // ---- Which session an offline event touches ----------------------------------

  lemma {:induction false} ActKeepsRow(d: Desk, act: Act, k: nat)
    requires CanDo(d, act) && k < |d.server.sessions|
    ensures k < |Execute(d, act).server.sessions| && Execute(d, act).server.sessions[k].pc == d.server.sessions[k].pc
  {
    hide Do;
    if act.Plain? {
      StepKeepsSale(d.server, act.op);
    }
  }

  lemma {:induction false} RowStays(d: Desk, acts: seq<Act>, k: nat)
    requires CanDoAll(d, acts) && k < |d.server.sessions|
    ensures k < |ExecuteAll(d, acts).server.sessions|
    ensures ExecuteAll(d, acts).server.sessions[k].pc == d.server.sessions[k].pc
    decreases |acts|
  {
    hide CanDo, Execute;
    if |acts| > 0 {
      ActKeepsRow(d, acts[0], k);
      RowStays(Execute(d, acts[0]), acts[1..], k);
    }
  }

  lemma {:induction false} OneActiveAtEnd(d: Desk, acts: seq<Act>)
    requires CanDoAll(d, acts) && OneActive(d.server) && NoCollidingResume(d, acts)
    ensures OneActive(ExecuteAll(d, acts).server)
    decreases |acts|
  {
    hide CanDo, Execute, OneActive, CollidingAct;
    if |acts| > 0 {
      ActKeepsOneActive(d, acts[0]);
      OneActiveAtEnd(Execute(d, acts[0]), acts[1..]);
    }
  }

  /** With one active session on the PC, an accepted extension or end touches row k exactly if that
      is the one. */
  lemma {:induction false} AcceptedTouchesActive(s: Server, evt: SyncEvent, ctx: Context, now: int, k: nat)
    requires OneActive(s) && k < |s.sessions| && s.sessions[k].pc == ctx.pc
    requires evt.etype.SessionExtended? || evt.etype.SessionEnded? || evt.etype.SessionCancelled?
    requires Process(s, evt, ctx, now).result.state.Accepted?
    ensures Process(s, evt, ctx, now).result.session == Some(k) <==> s.sessions[k].status.Active?
  {
    if !Known(s.offline, ctx.pc, evt) {
      ConflictMatrix(s, evt, ctx, now);
      var j := Process(s, evt, ctx, now).result.session;
      AcceptedOutcome(s, evt, ctx, now);
      hide Process;
      assert j.value < |s.sessions| && IsActiveOn(s.sessions[j.value], ctx.pc);
    }
  }

  /** An event does not say to the server which session it is about. After a start was accepted and
      any run without colliding resumes, an accepted extension or end touches the session of that
      start if and only if it is still active then; otherwise it touches another one of the PC. */
  lemma {:induction false} TouchesOwnSessionExactly(d: Desk, start: SyncEvent, ctx: Context, now: int, acts: seq<Act>,
                                                    evt: SyncEvent, again: Context, later: int)
    requires OneActive(d.server) && start.etype.SessionStarted? && again.pc == ctx.pc
    requires Process(d.server, start, ctx, now).result.state.Accepted?
    requires evt.etype.SessionExtended? || evt.etype.SessionEnded? || evt.etype.SessionCancelled?
    requires var begun := Execute(d, Plain(SyncOp(start, ctx, now)));
             CanDoAll(begun, acts) && NoCollidingResume(begun, acts)
             && Process(ExecuteAll(begun, acts).server, evt, again, later).result.state.Accepted?
    ensures var u := ExecuteAll(Execute(d, Plain(SyncOp(start, ctx, now))), acts).server;
            var k := |d.server.sessions|;
            && Process(d.server, start, ctx, now).result.session == Some(k)
            && k < |u.sessions|
            && (Process(u, evt, again, later).result.session == Some(k) <==> u.sessions[k].status.Active?)
  {
    hide CanDoAll, ExecuteAll, NoCollidingResume, Price;
    StartedSession(d.server, start, ctx, now);
    hide Process;
    var begun := Execute(d, Plain(SyncOp(start, ctx, now)));
    StepKeepsOneActive(d.server, SyncOp(start, ctx, now));
    RowStays(begun, acts, |d.server.sessions|);
    OneActiveAtEnd(begun, acts);
    hide Execute, OneActive;
    AcceptedTouchesActive(ExecuteAll(begun, acts).server, evt, again, later, |d.server.sessions|);
  }

  lemma {:induction false} StartedSession(s: Server, start: SyncEvent, ctx: Context, now: int)
    requires start.etype.SessionStarted? && Process(s, start, ctx, now).result.state.Accepted?
    ensures var a := Process(s, start, ctx, now);
            && a.result.session == Some(|s.sessions|) && |a.server.sessions| == |s.sessions| + 1
            && a.server.sessions[|s.sessions|].pc == ctx.pc
  {
    hide Price;
  }

  lemma {:induction false} ExtendsActive(s: Server, evt: SyncEvent, ctx: Context, now: int, k: nat)
    requires evt.etype.SessionExtended? && !Known(s.offline, ctx.pc, evt) && LoadActiveSession(s.sessions, ctx.pc) == Some(k)
    ensures var a := Process(s, evt, ctx, now);
            && a.result.state.Accepted? && a.result.session == Some(k)
            && a.server.sessions == s.sessions[k := ExtendUnpriced(s.sessions[k], ExtensionMinutes(evt.payload))]
  {
    hide Price;
  }

  /** The server after an offline session was started, and ended by staff, who started another. */
  function Replaced(cafe: nat, pc: nat, row: PcRow, rules: seq<Rule>, start: SyncEvent): Server {
    var s1 := Do(EmptyDesk().server, SyncOp(start, Context(cafe, pc, row.tier, rules), 0));
    var s2 := Do(s1, ChangeOp(cafe, 0, End, 1));
    Do(s2, StartOp(cafe, StartInput(pc, 60, Admin, None), Some(row), rules, 2))
  }

  lemma {:induction false} ReplacedSessions(cafe: nat, pc: nat, row: PcRow, rules: seq<Rule>, start: SyncEvent)
    requires row.cafe == cafe && row.status.Online?
    requires start.etype.SessionStarted? && start.occurredAt == 0
    ensures var s := Replaced(cafe, pc, row, rules, start);
            && |s.sessions| == 2 && s.sessions[0].status == Ended && s.sessions[0].extended == 0
            && IsActiveOn(s.sessions[1], pc) && s.sessions[1].extended == 0 && !IsActiveOn(s.sessions[0], pc)
            && forall id :: id in s.offline ==> id == start.id && s.offline[id].seqNo == start.seqNo
  {
    hide Price;
    var ctx := Context(cafe, pc, row.tier, rules);
    var s1 := Do(EmptyDesk().server, SyncOp(start, ctx, 0));
    assert s1.sessions == [StartRow(start, ctx, 0)] && s1.sessions[0].status == Active;
    var s2 := Do(s1, ChangeOp(cafe, 0, End, 1));
    assert s2.sessions == [s1.sessions[0].(status := Ended, endedAt := Some(1))];
    var s3 := Do(s2, StartOp(cafe, StartInput(pc, 60, Admin, None), Some(row), rules, 2));
    assert s3.sessions == s2.sessions + [OnlineRow(cafe, StartInput(pc, 60, Admin, None), row.tier, rules, 2)];
  }

  /** An offline session is ended by staff, who then start another one. The extension of the ended
      session, arriving late, is accepted and lengthens the other one. */
  lemma {:induction false} ExtensionHitsOtherSession(cafe: nat, pc: nat, row: PcRow, rules: seq<Rule>, ref: nat)
    requires row.cafe == cafe && row.status.Online?
    ensures var start := SyncEvent(0, 1, SessionStarted, 0, Payload(Some(ref), Number(60), Missing));
            var extension := SyncEvent(1, 2, SessionExtended, 1, Payload(Some(ref), Missing, Number(30)));
            var a := Process(Replaced(cafe, pc, row, rules, start), extension, Context(cafe, pc, row.tier, rules), 3);
            && |a.server.sessions| == 2 && a.result.state.Accepted? && a.result.session == Some(1)
            && a.server.sessions[0].status == Ended && a.server.sessions[0].extended == 0
            && a.server.sessions[1].extended == 30
  {
    hide Process, Replaced;
    var start := SyncEvent(0, 1, SessionStarted, 0, Payload(Some(ref), Number(60), Missing));
    var extension := SyncEvent(1, 2, SessionExtended, 1, Payload(Some(ref), Missing, Number(30)));
    ReplacedSessions(cafe, pc, row, rules, start);
    var s := Replaced(cafe, pc, row, rules, start);
    assert IsLatestActive(s.sessions, pc, LoadActiveSession(s.sessions, pc));
    assert !Known(s.offline, pc, extension);
    ExtendsActive(s, extension, Context(cafe, pc, row.tier, rules), 3, 1);
  }

  // ---- Idempotent starts -------------------------------------------------------

  ghost predicate KeysUnique(s: Server) {
    forall i, j :: 0 <= i < j < |s.sessions| && s.sessions[i].idempotencyKey.Some?
                   ==> s.sessions[i].idempotencyKey != s.sessions[j].idempotencyKey
  }

  lemma {:induction false} StepKeepsKeysUnique(s: Server, op: Op)
    requires KeysUnique(s)
    ensures KeysUnique(Do(s, op))
  {
    hide Price;
  }

  lemma {:induction false} ActKeepsKeysUnique(d: Desk, act: Act)
    requires CanDo(d, act) && KeysUnique(d.server)
    ensures KeysUnique(Execute(d, act).server)
  {
    hide Do;
    if act.Plain? {
      StepKeepsKeysUnique(d.server, act.op);
    }
  }

  /** However often starts are retried, no two sessions carry the same idempotency key. */
  lemma {:induction false} KeysStayUnique(d: Desk, acts: seq<Act>)
    requires CanDoAll(d, acts) && KeysUnique(d.server)
    ensures KeysUnique(ExecuteAll(d, acts).server)
    decreases |acts|
  {
    hide CanDo, Execute, KeysUnique;
    if |acts| > 0 {
      ActKeepsKeysUnique(d, acts[0]);
      KeysStayUnique(Execute(d, acts[0]), acts[1..]);
    }
  }
}
