/** The offline sync protocol between one agent and the server, statement by statement on the
    agent, and on the server transaction by transaction, and statement by statement where a request
    uses no transaction. Requests and replies may be lost, late or processed again; the agent may
    crash between any two statements; several threads may be enqueuing; other PCs and the staff
    act on the server at any time. */
module Protocol {
  import opened Domain
  import opened Sorting
  import opened AckCursor
  import Pricing
  import opened SyncServer
  import opened Lifecycle
  import opened Outbox
  import opened SyncUpload

  datatype Request = Request(last: int, events: seq<SyncEvent>)

  /** How far the server has come with one copy of a request. */
  datatype Serving = Serving(req: Request, done: seq<SyncResult>)

  /** Where the uploader stands. ApplyBatch is three kinds of statements: it marks result
      after result, prunes, and writes the cursor. */
  datatype Phase =
    | Idle
    | Awaiting(req: Request)
    | Marking(results: seq<SyncResult>, ack: int, k: nat)
    | Writing(ack: int)

  /** `handedOut` are the seqs that NextSeq handed out and no INSERT has used yet; `resolving` are
      the conflict resolutions in flight. The last two fields record history: every event ever
      inserted, by seq, and the ids of the events that changed the session table, in order. */
  datatype System = System(
    pc: nat, store: Store, handedOut: set<nat>, phase: Phase, serving: set<Serving>,
    server: Server, resolving: map<nat, Resolver>,
    inserted: map<nat, SyncEvent>, changes: seq<nat>)

  function Init(pc: nat, server: Server): System {
    System(pc, Store(0, 0, []), {}, Idle, {}, server, map[], map[], [])
  }

  // ---- Steps -------------------------------------------------------------------

  datatype Step =
    | Allocate
    | Insert(evt: SyncEvent)
    | FailInsert(seqNo: nat)
    | Send
    | Serve(sv: Serving, ctx: Context, now: int)
    | ServeOther(evt: SyncEvent, ctx: Context, now: int)
    | Deliver(sv: Serving)
    | Mark
    | PruneAcked
    | WriteCursor
    | GiveUp
    | Crash
    | Staff(act: Act)

  function DeskOf(s: System): Desk {
    Desk(s.server, s.resolving)
  }

  predicate FreshId(s: System, id: nat) {
    id !in s.server.offline && forall q :: q in s.inserted ==> s.inserted[q].id != id
  }

  predicate CanTake(s: System, st: Step) {
    match st
    case Allocate => true
    case Insert(evt) => evt.seqNo in s.handedOut && FreshId(s, evt.id)
    case FailInsert(seqNo) => seqNo in s.handedOut
    case Send => s.phase.Idle? && |PendingBatch(s.store, BATCH_SIZE)| > 0
    case Serve(sv, ctx, _) => sv in s.serving && |sv.done| < |sv.req.events| && ctx.pc == s.pc
    case ServeOther(evt, ctx, _) => ctx.pc != s.pc && forall q :: q in s.inserted ==> s.inserted[q].id != evt.id
    case Deliver(sv) => sv in s.serving && |sv.done| == |sv.req.events| && s.phase == Awaiting(sv.req)
    case Mark => s.phase.Marking? && s.phase.k < |s.phase.results|
    case PruneAcked => s.phase.Marking? && s.phase.k == |s.phase.results|
    case WriteCursor => s.phase.Writing?
    case GiveUp => s.phase.Awaiting?
    case Crash => true
    case Staff(act) => CanDo(DeskOf(s), act) && !(act.Plain? && act.op.SyncOp?)
  }

  /** Notes `id` in the history if the session table changed. */
  function Noted(s: System, server: Server, id: nat): System {
    s.(server := server, changes := if server.sessions != s.server.sessions then s.changes + [id] else s.changes)
  }

  function Take(s: System, st: Step): System
    requires CanTake(s, st)
  {
    match st
    case Allocate => s.(store := s.store.(counter := s.store.counter + 1), handedOut := s.handedOut + {s.store.counter + 1})
    case Insert(evt) =>
      s.(store := InsertRow(s.store, evt), handedOut := s.handedOut - {evt.seqNo}, inserted := s.inserted[evt.seqNo := evt])
    case FailInsert(seqNo) => s.(handedOut := s.handedOut - {seqNo})
    case Send =>
      var req := Request(s.store.cursor, PendingBatch(s.store, BATCH_SIZE));
      s.(phase := Awaiting(req), serving := s.serving + {Serving(req, [])})
    case Serve(sv, ctx, now) =>
      var a := Process(s.server, sv.req.events[|sv.done|], ctx, now);
      Noted(s, a.server, a.result.id).(serving := s.serving + {sv.(done := sv.done + [a.result])})
    case ServeOther(evt, ctx, now) => Noted(s, Process(s.server, evt, ctx, now).server, evt.id)
    case Deliver(sv) =>
      var ack := ComputeAckSeq(sv.req.last, sv.done);
      s.(phase := Marking(sv.done, MaxOf(ack, Advance(sv.req.last, sv.done)), 0))
    case Mark =>
      var r := s.phase.results[s.phase.k];
      s.(store := s.store.(rows := MarkRows(s.store.rows, r)), phase := s.phase.(k := s.phase.k + 1))
    case PruneAcked => s.(store := Prune(s.store, s.phase.ack), phase := Writing(s.phase.ack))
    case WriteCursor => s.(store := AdvanceCursor(s.store, s.phase.ack), phase := Idle)
    case GiveUp => s.(phase := Idle)
    case Crash => s.(phase := Idle, handedOut := {})
    case Staff(act) =>
      var d := Execute(DeskOf(s), act);
      var t := if act.WriteExtension? then Noted(s, d.server, s.resolving[act.req].id) else s.(server := d.server);
      t.(resolving := d.resolving)
  }

  predicate CanRun(s: System, steps: seq<Step>)
    decreases |steps|
  {
    |steps| == 0 || (CanTake(s, steps[0]) && CanRun(Take(s, steps[0]), steps[1..]))
  }

  function After(s: System, steps: seq<Step>): System
    requires CanRun(s, steps)
    decreases |steps|
  {
    if |steps| == 0 then s else After(Take(s, steps[0]), steps[1..])
  }

  // ---- An undisturbed round is one UploadBatch -----------------------------------

  lemma {:induction false} RunConcat(s: System, xs: seq<Step>, ys: seq<Step>)
    requires CanRun(s, xs) && CanRun(After(s, xs), ys)
    ensures CanRun(s, xs + ys) && After(s, xs + ys) == After(After(s, xs), ys)
    decreases |xs|
  {
    hide CanTake, Take;
    if |xs| == 0 {
      assert xs + ys == ys;
    } else {
      RunConcat(Take(s, xs[0]), xs[1..], ys);
      assert (xs + ys)[0] == xs[0] && (xs + ys)[1..] == xs[1..] + ys;
    }
  }

  lemma {:induction false} RunNothing(s: System)
    ensures CanRun(s, []) && After(s, []) == s
  {
  }

  lemma {:induction false} RunOne(s: System, st: Step)
    requires CanTake(s, st)
    ensures CanRun(s, [st]) && After(s, [st]) == Take(s, st)
  {
    hide CanTake, Take;
    assert [st][1..] == [];
    assert CanRun(Take(s, st), []);
  }

  lemma {:induction false} RunNext(s: System, st: Step, steps: seq<Step>)
    requires CanTake(s, st) && CanRun(Take(s, st), steps)
    ensures CanRun(s, [st] + steps) && After(s, [st] + steps) == After(Take(s, st), steps)
  {
    hide CanTake, Take;
    assert ([st] + steps)[1..] == steps;
  }

  /** The steps that serve the first `n` events of a fresh copy of a request. */
  function ServeSteps(server: Server, req: Request, ctx: Context, times: seq<int>, n: nat): seq<Step>
    requires n <= |req.events| == |times|
  {
    if n == 0 then []
    else
      var sv := Serving(req, ProcessAll(server, req.events[..n - 1], ctx, times[..n - 1]).results);
      ServeSteps(server, req, ctx, times, n - 1) + [Serve(sv, ctx, times[n - 1])]
  }

  lemma {:induction false} ServingInOrder(s: System, req: Request, ctx: Context, times: seq<int>, n: nat)
    requires n <= |req.events| == |times| && ctx.pc == s.pc && Serving(req, []) in s.serving
    ensures var steps, p := ServeSteps(s.server, req, ctx, times, n), ProcessAll(s.server, req.events[..n], ctx, times[..n]);
            && CanRun(s, steps) && Serving(req, p.results) in After(s, steps).serving && |p.results| == n
            && After(s, steps).server == p.server && After(s, steps).store == s.store
            && After(s, steps).phase == s.phase && After(s, steps).pc == s.pc
  {
    hide Process, CanRun, After, ProcessAll;
    if n == 0 {
      RunNothing(s);
      ProcessAllNothing(s.server, ctx);
      assert req.events[..0] == [] && times[..0] == [];
    } else {
      ServingInOrder(s, req, ctx, times, n - 1);
      var steps, p := ServeSteps(s.server, req, ctx, times, n - 1), ProcessAll(s.server, req.events[..n - 1], ctx, times[..n - 1]);
      var t, st := After(s, steps), Serve(Serving(req, p.results), ctx, times[n - 1]);
      RunOne(t, st);
      RunConcat(s, steps, [st]);
      assert req.events[..n] == req.events[..n - 1] + [req.events[n - 1]] && times[..n] == times[..n - 1] + [times[n - 1]];
      ProcessAllAppend(s.server, req.events[..n - 1], req.events[n - 1], ctx, times[..n - 1], times[n - 1]);
    }
  }

  lemma {:induction false} MarkingInOrder(s: System, n: nat)
    requires s.phase.Marking? && s.phase.k == 0 && n <= |s.phase.results|
    ensures var steps := Pricing.Repeat(Mark, n);
            && CanRun(s, steps)
            && After(s, steps) == s.(store := s.store.(rows := MarkAll(s.store.rows, s.phase.results[..n])),
                                     phase := s.phase.(k := n))
  {
    hide MarkAll, MarkRows, CanRun, After;
    if n > 0 {
      MarkingInOrder(s, n - 1);
      var t := After(s, Pricing.Repeat(Mark, n - 1));
      RunOne(t, Mark);
      RunConcat(s, Pricing.Repeat(Mark, n - 1), [Mark]);
      MarkAllStep(s.store.rows, s.phase.results, n - 1);
    } else {
      RunNothing(s);
      MarkAllNothing(s.store.rows, s.phase.results);
    }
  }

  /** Run to their end, the statements of ApplyBatch are ApplyBatch. */
  lemma {:induction false} StatementsAreApplyBatch(s: System)
    requires s.phase.Marking? && s.phase.k == 0
    ensures var steps := Pricing.Repeat(Mark, |s.phase.results|) + [PruneAcked, WriteCursor];
            && CanRun(s, steps)
            && After(s, steps) == s.(store := ApplyBatch(s.store, s.phase.results, s.phase.ack), phase := Idle)
  {
    hide PruneRows, MarkAll;
    var rs := s.phase.results;
    MarkingInOrder(s, |rs|);
    assert rs[..|rs|] == rs;
    var t := After(s, Pricing.Repeat(Mark, |rs|));
    RunOne(t, PruneAcked);
    var u := Take(t, PruneAcked);
    RunOne(u, WriteCursor);
    RunConcat(t, [PruneAcked], [WriteCursor]);
    assert [PruneAcked] + [WriteCursor] == [PruneAcked, WriteCursor];
    RunConcat(s, Pricing.Repeat(Mark, |rs|), [PruneAcked, WriteCursor]);
  }

  function RoundSteps(s: System, ctx: Context, times: seq<int>): seq<Step>
    requires |times| == BATCH_SIZE
  {
    var req := Request(s.store.cursor, PendingBatch(s.store, BATCH_SIZE));
    var n := |req.events|;
    var p := ProcessAll(s.server, req.events, ctx, times[..n]);
    [Send] + ServeSteps(s.server, req, ctx, times[..n], n) + [Deliver(Serving(req, p.results))]
    + (Pricing.Repeat(Mark, |p.results|) + [PruneAcked, WriteCursor])
  }

  lemma {:induction false} BatchIsSorted(o: Store, limit: nat)
    ensures Sorted(PendingBatch(o, limit), EventSeq)
  {
    SortCorrect(PendingEvents(o.rows), EventSeq);
  }

  /** The steps refine the methods: a round in which nothing is lost or interrupted and nobody
      else acts leaves the outbox and the server exactly as one UploadBatch leaves them. */
  lemma {:induction false} QuietRoundIsUpload(s: System, ctx: Context, times: seq<int>)
    requires s.phase.Idle? && ctx.pc == s.pc && |times| == BATCH_SIZE && |PendingBatch(s.store, BATCH_SIZE)| > 0
    ensures var steps := RoundSteps(s, ctx, times);
            && CanRun(s, steps) && After(s, steps).phase.Idle?
            && After(s, steps).store == Uploaded(s.store, s.server, ctx, times)
            && After(s, steps).server == Received(s.store, s.server, ctx, times)
  {
    hide Process, PendingBatch, ApplyBatch, ComputeAckSeq, Advance, ServeSteps;
    BatchIsSorted(s.store, BATCH_SIZE);
    var req := Request(s.store.cursor, PendingBatch(s.store, BATCH_SIZE));
    var n := |req.events|;
    var p := ProcessAll(s.server, req.events, ctx, times[..n]);
    assert req.events[..n] == req.events && times[..n][..n] == times[..n];
    SortOfSorted(req.events, EventSeq);
    var s1 := Take(s, Send);
    RunOne(s, Send);
    ServingInOrder(s1, req, ctx, times[..n], n);
    var serves := ServeSteps(s.server, req, ctx, times[..n], n);
    var s2 := After(s1, serves);
    RunConcat(s, [Send], serves);
    var deliver := Deliver(Serving(req, p.results));
    RunOne(s2, deliver);
    RunConcat(s, [Send] + serves, [deliver]);
    StatementsAreApplyBatch(Take(s2, deliver));
    RunConcat(s, [Send] + serves + [deliver], Pricing.Repeat(Mark, |p.results|) + [PruneAcked, WriteCursor]);
  }

  // ---- The server never forgets an event ---------------------------------------

  /** Nothing but verdict and reason differs. */
  predicate SameEvent(a: OfflineRow, b: OfflineRow) {
    b.(state := a.state, reason := a.reason) == a
  }

  /** Rows stay, with their event. */
  ghost predicate Grows(a: map<nat, OfflineRow>, b: map<nat, OfflineRow>) {
    forall id :: id in a ==> id in b && SameEvent(a[id], b[id])
  }

  /** Rows stay exactly as they are. */
  ghost predicate RowsStay(a: map<nat, OfflineRow>, b: map<nat, OfflineRow>) {
    forall id :: id in a ==> id in b && b[id] == a[id]
  }

  lemma {:induction false} ResultNamesEvent(s: Server, evt: SyncEvent, ctx: Context, now: int)
    ensures var r := Process(s, evt, ctx, now).result; r.id == evt.id && r.seqNo == evt.seqNo
  {
    hide Pricing.Price;
  }

  lemma {:induction false} ProcessKeepsRows(s: Server, evt: SyncEvent, ctx: Context, now: int)
    ensures RowsStay(s.offline, Process(s, evt, ctx, now).server.offline)
  {
    ProcessRecords(s, evt, ctx, now);
  }

  lemma {:induction false} StaffKeepsRows(d: Desk, act: Act)
    requires CanDo(d, act) && !(act.Plain? && act.op.SyncOp?)
    ensures !act.WriteVerdict? ==> Execute(d, act).server.offline == d.server.offline
    ensures act.WriteVerdict? ==>
              var r := d.resolving[act.req];
              Execute(d, act).server == d.server.(offline := d.server.offline[r.id := Settled(d.server.offline[r.id], r.resolution)])
    ensures Grows(d.server.offline, Execute(d, act).server.offline)
    ensures forall id :: id in Execute(d, act).server.offline ==> id in d.server.offline
  {
    hide Pricing.Price;
  }

  predicate WritesVerdict(s: System, st: Step, id: nat) {
    st.Staff? && st.act.WriteVerdict? && CanTake(s, st) && s.resolving[st.act.req].id == id
  }

  /** Rows are never lost, and only the verdict write of a resolution of that very event changes
      one. */
  lemma {:induction false} TakeGrows(s: System, st: Step)
    requires CanTake(s, st)
    ensures Grows(s.server.offline, Take(s, st).server.offline)
    ensures forall id :: id in s.server.offline && !WritesVerdict(s, st, id) ==>
              Take(s, st).server.offline[id] == s.server.offline[id]
  {
    hide Process, Do;
    match st
    case Serve(sv, ctx, now) => ProcessKeepsRows(s.server, sv.req.events[|sv.done|], ctx, now);
    case ServeOther(evt, ctx, now) => ProcessKeepsRows(s.server, evt, ctx, now);
    case Staff(act) => StaffKeepsRows(DeskOf(s), act);
    case _ =>
  }

  /** The server forgets no event. */
  lemma {:induction false} TakeKeepsIds(s: System, st: Step)
    requires CanTake(s, st)
    ensures forall id :: id in s.server.offline ==> id in Take(s, st).server.offline
  {
    hide CanTake, Take, WritesVerdict;
    TakeGrows(s, st);
  }

  // ---- No loss -----------------------------------------------------------------

  predicate Ours(s: System, e: SyncEvent) {
    e.seqNo in s.inserted && s.inserted[e.seqNo] == e
  }

  /** The event with this number was inserted and the server has recorded it. */
  predicate Recorded(s: System, q: int) {
    q >= 0 && q in s.inserted && s.inserted[q].id in s.server.offline
  }

  ghost predicate RecordedUpTo(s: System, n: int) {
    forall q :: 1 <= q <= n ==> Recorded(s, q)
  }

  /** Seqs name events: inserted ones were handed out before and are not free now. */
  ghost predicate SeqsNameEvents(s: System) {
    && (forall q :: q in s.inserted ==> 1 <= q <= s.store.counter && q !in s.handedOut && s.inserted[q].seqNo == q)
    && (forall q :: q in s.handedOut ==> 1 <= q <= s.store.counter)
    && (forall p, q :: p in s.inserted && q in s.inserted && s.inserted[p].id == s.inserted[q].id ==> p == q)
  }

  ghost predicate RowsAreOurs(s: System) {
    forall i :: 0 <= i < |s.store.rows| ==> Ours(s, s.store.rows[i].evt)
  }

  /** The server's rows of this PC are this agent's events, under their own numbers. */
  ghost predicate ServerAgrees(s: System) {
    && (forall id :: id in s.server.offline && s.server.offline[id].pc == s.pc ==>
          s.server.offline[id].seqNo in s.inserted && s.inserted[s.server.offline[id].seqNo].id == id)
    && (forall q :: q in s.inserted && s.inserted[q].id in s.server.offline ==> s.server.offline[s.inserted[q].id].pc == s.pc)
  }

  ghost predicate Sound(s: System, sv: Serving) {
    && |sv.done| <= |sv.req.events|
    && (forall i :: 0 <= i < |sv.req.events| ==> Ours(s, sv.req.events[i]))
    && (forall i :: 0 <= i < |sv.done| ==> sv.done[i].seqNo == sv.req.events[i].seqNo && Recorded(s, sv.done[i].seqNo))
    && RecordedUpTo(s, sv.req.last)
  }

  ghost predicate PhaseSound(s: System) {
    match s.phase
    case Marking(results, ack, k) => RecordedUpTo(s, ack)
    case Writing(ack) =>
      && RecordedUpTo(s, ack)
      && forall i :: 0 <= i < |s.store.rows| && s.store.rows[i].state.Pending? ==> s.store.rows[i].evt.seqNo > ack
    case _ => true
  }

  ghost predicate Kept(s: System, e: SyncEvent) {
    exists i :: 0 <= i < |s.store.rows| && s.store.rows[i].evt == e
  }

  /** Every event ever inserted is still in the outbox or is recorded on the server. */
  ghost predicate NothingLost(s: System) {
    forall q :: q in s.inserted ==> Kept(s, s.inserted[q]) || Recorded(s, q)
  }

  ghost predicate Inv(s: System) {
    && SeqsNameEvents(s) && RowsAreOurs(s) && ServerAgrees(s)
    && (forall sv :: sv in s.serving ==> Sound(s, sv))
    && PhaseSound(s) && RecordedUpTo(s, s.store.cursor) && NothingLost(s)
  }

  /** With more events inserted and recorded, all knowledge about the server stays valid. */
  lemma {:induction false} KnowledgeStays(s: System, t: System)
    requires forall q :: q in s.inserted ==> q in t.inserted && t.inserted[q] == s.inserted[q]
    requires forall id :: id in s.server.offline ==> id in t.server.offline
    ensures forall q :: Recorded(s, q) ==> Recorded(t, q)
    ensures forall e :: Ours(s, e) ==> Ours(t, e)
    ensures forall sv :: Sound(s, sv) ==> Sound(t, sv)
    ensures forall n :: RecordedUpTo(s, n) ==> RecordedUpTo(t, n)
  {
    assert forall q :: Recorded(s, q) ==> Recorded(t, q);
    assert forall e :: Ours(s, e) ==> Ours(t, e);
  }

  /** The agent's side is untouched, the server only grows, and it still agrees. */
  lemma {:induction false} ServerStepKeepsInv(s: System, t: System)
    requires Inv(s) && Grows(s.server.offline, t.server.offline) && ServerAgrees(t)
    requires t.pc == s.pc && t.store == s.store && t.handedOut == s.handedOut && t.phase == s.phase
    requires t.inserted == s.inserted
    requires forall sv :: sv in t.serving ==> sv in s.serving || Sound(t, sv)
    ensures Inv(t)
  {
    hide Sound, RecordedUpTo, SeqsNameEvents;
    KnowledgeStays(s, t);
    SeqsStay(s, t);
    assert forall q :: q in s.inserted && Kept(s, s.inserted[q]) ==> Kept(t, s.inserted[q]);
  }

  lemma {:induction false} SeqsStay(s: System, t: System)
    requires SeqsNameEvents(s)
    requires t.inserted == s.inserted && t.store.counter == s.store.counter && t.handedOut <= s.handedOut
    ensures SeqsNameEvents(t)
  {
  }

  lemma {:induction false} ProcessKeepsAgreement(s: System, evt: SyncEvent, ctx: Context, now: int)
    requires ServerAgrees(s) && SeqsNameEvents(s)
    requires if ctx.pc == s.pc then Ours(s, evt) else forall q :: q in s.inserted ==> s.inserted[q].id != evt.id
    ensures ServerAgrees(s.(server := Process(s.server, evt, ctx, now).server))
    ensures ctx.pc == s.pc ==> evt.id in Process(s.server, evt, ctx, now).server.offline
  {
    hide Pricing.Price;
    var a, b := s.server.offline, Process(s.server, evt, ctx, now).server.offline;
    ProcessRecords(s.server, evt, ctx, now);
    if Known(a, ctx.pc, evt) {
      assert b == a;
      assert ctx.pc == s.pc ==> forall id :: id in a && a[id].pc == s.pc && a[id].seqNo == evt.seqNo ==> id == evt.id;
    } else {
      assert b[evt.id].pc == ctx.pc && b[evt.id].seqNo == evt.seqNo;
    }
  }

  lemma {:induction false} ServeKeepsInv(s: System, st: Step)
    requires Inv(s) && CanTake(s, st) && st.Serve?
    ensures Inv(Take(s, st))
  {
    hide Process, NothingLost, PhaseSound, RowsAreOurs;
    var t, sv := Take(s, st), st.sv;
    var evt := sv.req.events[|sv.done|];
    assert Sound(s, sv);
    TakeGrows(s, st);
    ProcessKeepsAgreement(s, evt, st.ctx, st.now);
    ResultNamesEvent(s.server, evt, st.ctx, st.now);
    var r := Process(s.server, evt, st.ctx, st.now).result;
    var next := sv.(done := sv.done + [r]);
    assert forall q :: Recorded(s, q) ==> Recorded(t, q);
    assert Recorded(t, evt.seqNo);
    assert Sound(t, next);
    assert t.server == Process(s.server, evt, st.ctx, st.now).server;
    ServerStepKeepsInv(s, t);
  }

  lemma {:induction false} OthersKeepInv(s: System, st: Step)
    requires Inv(s) && CanTake(s, st) && (st.ServeOther? || st.Staff?)
    ensures Inv(Take(s, st))
  {
    hide Process, Do, NothingLost, PhaseSound, RowsAreOurs;
    var t := Take(s, st);
    TakeGrows(s, st);
    if st.ServeOther? {
      ProcessKeepsAgreement(s, st.evt, st.ctx, st.now);
    } else {
      StaffKeepsRows(DeskOf(s), st.act);
    }
    ServerStepKeepsInv(s, t);
  }

  lemma {:induction false} AllocateKeepsInv(s: System, st: Step)
    requires Inv(s) && st.Allocate?
    ensures Inv(Take(s, st))
  {
    var t := Take(s, st);
    hide Sound, RecordedUpTo;
    KnowledgeStays(s, t);
    assert forall q :: q in s.inserted && Kept(s, s.inserted[q]) ==> Kept(t, s.inserted[q]);
  }

  lemma {:induction false} InsertKeepsRows(s: System, st: Step)
    requires SeqsNameEvents(s) && CanTake(s, st) && st.Insert?
    ensures forall q :: q in s.inserted && Kept(s, s.inserted[q]) ==> Kept(Take(s, st), s.inserted[q])
    ensures Kept(Take(s, st), st.evt)
  {
    var t := Take(s, st);
    forall q | q in s.inserted && Kept(s, s.inserted[q])
      ensures Kept(t, s.inserted[q])
    {
      var i :| 0 <= i < |s.store.rows| && s.store.rows[i].evt == s.inserted[q];
      assert t.store.rows[i] == s.store.rows[i];
    }
    assert t.store.rows[|s.store.rows|].evt == st.evt;
  }

  lemma {:induction false} InsertKeepsPhase(s: System, st: Step)
    requires SeqsNameEvents(s) && PhaseSound(s) && CanTake(s, st) && st.Insert?
    ensures PhaseSound(Take(s, st))
  {
    KnowledgeStays(s, Take(s, st));
    assert !Recorded(s, st.evt.seqNo);
  }

  lemma {:induction false} InsertKeepsInv(s: System, st: Step)
    requires Inv(s) && CanTake(s, st) && st.Insert?
    ensures Inv(Take(s, st))
  {
    hide Kept, Sound, RecordedUpTo;
    var t := Take(s, st);
    InsertKeepsRows(s, st);
    KnowledgeStays(s, t);
    InsertKeepsPhase(s, st);
  }

  /** Statements of the uploader leave the history, the server and the counter alone. */
  lemma {:induction false} UploaderKeepsInv(s: System, t: System)
    requires Inv(s)
    requires t.pc == s.pc && t.server == s.server && t.inserted == s.inserted
    requires t.store.counter == s.store.counter && t.handedOut <= s.handedOut
    requires forall sv :: sv in t.serving ==> sv in s.serving || Sound(s, sv)
    requires RowsAreOurs(t) && PhaseSound(t) && RecordedUpTo(t, t.store.cursor)
    requires forall q :: q in s.inserted && Kept(s, s.inserted[q]) ==> Kept(t, s.inserted[q]) || Recorded(s, q)
    ensures Inv(t)
  {
    hide Sound, RecordedUpTo, SeqsNameEvents, PhaseSound;
    KnowledgeStays(s, t);
    SeqsStay(s, t);
  }

  lemma {:induction false} PendingBatchIsFromRows(o: Store, limit: nat)
    ensures forall e :: e in PendingBatch(o, limit) ==> exists i :: 0 <= i < |o.rows| && o.rows[i].evt == e
  {
    var p := PendingEvents(o.rows);
    SortMembers(p, EventSeq);
    forall e | e in PendingBatch(o, limit)
      ensures exists i :: 0 <= i < |o.rows| && o.rows[i].evt == e
    {
      assert e in Sort(p, EventSeq);
      var k :| 0 <= k < |p| && p[k] == e;
      var i := PendingIsFromRow(o.rows, k);
    }
  }

  lemma {:induction false} SendKeepsInv(s: System, st: Step)
    requires Inv(s) && CanTake(s, st) && st.Send?
    ensures Inv(Take(s, st))
  {
    hide PendingBatch;
    var t := Take(s, st);
    var req := Request(s.store.cursor, PendingBatch(s.store, BATCH_SIZE));
    forall i | 0 <= i < |req.events|
      ensures Ours(s, req.events[i])
    {
      PendingBatchIsFromRows(s.store, BATCH_SIZE);
      assert req.events[i] in req.events;
    }
    assert Sound(s, Serving(req, []));
    KnowledgeStays(s, t);
    UploaderKeepsInv(s, t);
  }

  lemma {:induction false} DeliverKeepsInv(s: System, st: Step)
    requires Inv(s) && CanTake(s, st) && st.Deliver?
    ensures Inv(Take(s, st))
  {
    hide ComputeAckSeq, Advance;
    var t, sv := Take(s, st), st.sv;
    assert Sound(s, sv);
    var ack := ComputeAckSeq(sv.req.last, sv.done);
    AgentAgreesWithServer(sv.req.last, sv.done);
    AckIsGreatest(sv.req.last, sv.done);
    forall q | 1 <= q <= ack
      ensures Recorded(s, q)
    {
      if q > sv.req.last {
        assert HasTerminal(q, sv.done);
        var i :| 0 <= i < |sv.done| && sv.done[i].seqNo == q;
      }
    }
    assert forall q :: Recorded(s, q) <==> Recorded(t, q);
    UploaderKeepsInv(s, t);
  }

  lemma {:induction false} ApplyKeepsInv(s: System, st: Step)
    requires Inv(s) && CanTake(s, st) && (st.Mark? || st.PruneAcked? || st.WriteCursor?)
    ensures Inv(Take(s, st))
  {
    hide PruneRows;
    var t := Take(s, st);
    assert forall q :: Recorded(s, q) <==> Recorded(t, q);
    if st.Mark? {
      forall q | q in s.inserted && Kept(s, s.inserted[q])
        ensures Kept(t, s.inserted[q])
      {
        var i :| 0 <= i < |s.store.rows| && s.store.rows[i].evt == s.inserted[q];
        assert t.store.rows[i].evt == s.inserted[q];
      }
    } else if st.PruneAcked? {
      PruneKeeps(s.store.rows, s.phase.ack);
      assert forall i :: 0 <= i < |t.store.rows| ==> t.store.rows[i] in s.store.rows;
      forall q | q in s.inserted && Kept(s, s.inserted[q])
        ensures Kept(t, s.inserted[q]) || Recorded(s, q)
      {
        var i :| 0 <= i < |s.store.rows| && s.store.rows[i].evt == s.inserted[q];
        assert s.store.rows[i] in t.store.rows || q <= s.phase.ack;
      }
    }
    UploaderKeepsInv(s, t);
  }

  lemma {:induction false} StopKeepsInv(s: System, st: Step)
    requires Inv(s) && CanTake(s, st) && (st.GiveUp? || st.Crash? || st.FailInsert?)
    ensures Inv(Take(s, st))
  {
    var t := Take(s, st);
    assert forall q :: Recorded(s, q) <==> Recorded(t, q);
    UploaderKeepsInv(s, t);
  }

  lemma {:induction false} TakeKeepsInv(s: System, st: Step)
    requires Inv(s) && CanTake(s, st)
    ensures Inv(Take(s, st))
  {
    hide Inv, CanTake, Take;
    match st
    case Allocate => AllocateKeepsInv(s, st);
    case Insert(_) => InsertKeepsInv(s, st);
    case FailInsert(_) => StopKeepsInv(s, st);
    case Send => SendKeepsInv(s, st);
    case Serve(_, _, _) => ServeKeepsInv(s, st);
    case ServeOther(_, _, _) => OthersKeepInv(s, st);
    case Deliver(_) => DeliverKeepsInv(s, st);
    case Mark => ApplyKeepsInv(s, st);
    case PruneAcked => ApplyKeepsInv(s, st);
    case WriteCursor => ApplyKeepsInv(s, st);
    case GiveUp => StopKeepsInv(s, st);
    case Crash => StopKeepsInv(s, st);
    case Staff(_) => OthersKeepInv(s, st);
  }

  lemma {:induction false} InvHolds(s: System, steps: seq<Step>)
    requires CanRun(s, steps) && Inv(s)
    ensures Inv(After(s, steps))
    decreases |steps|
  {
    hide CanTake, Take, Inv;
    if |steps| > 0 {
      TakeKeepsInv(s, steps[0]);
      InvHolds(Take(s, steps[0]), steps[1..]);
    }
  }

  /** No loss: after any run from a new agent, whatever was lost, replayed or interrupted,
      every event ever inserted in the outbox is still there or recorded on the server, and
      every number up to the cursor belongs to an event that was inserted and recorded. */
  lemma {:induction false} NoEventIsLost(pc: nat, server: Server, steps: seq<Step>)
    requires forall id :: id in server.offline ==> server.offline[id].pc != pc
    requires CanRun(Init(pc, server), steps)
    ensures var s := After(Init(pc, server), steps);
            NothingLost(s) && RecordedUpTo(s, s.store.cursor)
  {
    hide CanTake, Take;
    InvHolds(Init(pc, server), steps);
  }

  // ---- Where the code falls short of its documentation --------------------------

  /** A conflicted event is kept by the agent if the first reply arrives. If that reply is lost
      the replay is answered `duplicate`, and the agent drops the event although the server
      still holds it for review. */
  lemma {:induction false} LostReplyDropsConflict(s: Server, o: Store, evt: SyncEvent, ctx: Context, now: int, later: int)
    requires UniqueIds(o.rows) && OutboxRow(evt, Pending) in o.rows
    requires Process(s, evt, ctx, now).result.state.Conflicted?
    ensures var first := Process(s, evt, ctx, now);
            var replay := Process(first.server, evt, ctx, later);
            && HasEvent(ApplyBatch(o, [first.result], evt.seqNo).rows, evt)
            && !HasEvent(ApplyBatch(o, [replay.result], evt.seqNo).rows, evt)
            && replay.server.offline[evt.id].state.Conflicted?
  {
    hide Pricing.Price, ApplyBatch;
    var first := Process(s, evt, ctx, now);
    ReplayIsNoOp(s, evt, ctx, now, ctx, later);
    var replay := Process(first.server, evt, ctx, later);
    var i :| 0 <= i < |o.rows| && o.rows[i] == OutboxRow(evt, Pending);
    assert first.result in [first.result] && ConflictedIn([first.result], evt.id);
    ApplyBatchKeeps(o, [first.result], evt.seqNo, evt);
    ApplyBatchKeeps(o, [replay.result], evt.seqNo, evt);
    assert !ConflictedIn([replay.result], evt.id);
  }
}
