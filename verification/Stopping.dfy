/** When the agent's cursor stops for good. */
module Stopping {
  import opened Domain
  import opened Sorting
  import opened AckCursor
  import Pricing
  import opened SyncServer
  import opened Lifecycle
  import opened Outbox
  import opened SyncUpload
  import opened Protocol

  // ---- What stops the cursor ---------------------------------------------------

  /** A number that was handed out but belongs to no event and to no running enqueue. */
  predicate Hole(s: System, q: nat) {
    1 <= q <= s.store.counter && q !in s.inserted && q !in s.handedOut
  }

  /** A crash between NextSeq and INSERT turns the number into a hole. */
  lemma {:induction false} CrashMakesHole(s: System, q: nat)
    requires Inv(s) && q in s.handedOut
    ensures Hole(Take(s, Crash), q)
  {
  }

  /** So does an INSERT that fails while the agent goes on. */
  lemma {:induction false} FailedInsertMakesHole(s: System, q: nat)
    requires Inv(s) && q in s.handedOut
    ensures Hole(Take(s, FailInsert(q)), q)
  {
  }

  lemma {:induction false} HoleStays(s: System, st: Step, q: nat)
    requires CanTake(s, st) && Hole(s, q)
    ensures Hole(Take(s, st), q)
  {
    hide Process, Do, PendingBatch, PruneRows, ComputeAckSeq, Advance;
  }

  /** Without resetting the counter, the cursor never passes a hole again, in any run. */
  lemma {:induction false} HoleBlocksCursor(s: System, steps: seq<Step>, q: nat)
    requires CanRun(s, steps) && Inv(s) && Hole(s, q)
    ensures Hole(After(s, steps), q) && After(s, steps).store.cursor < q
    decreases |steps|
  {
    hide CanTake, Take;
    if |steps| > 0 {
      TakeKeepsInv(s, steps[0]);
      HoleStays(s, steps[0], q);
      HoleBlocksCursor(Take(s, steps[0]), steps[1..], q);
    } else {
      assert !Recorded(s, q);
    }
  }

  /** The event after the cursor exists but is no longer pending, and no reply that the agent
      still waits for or applies reaches it. */
  ghost predicate Wedged(s: System) {
    var q := s.store.cursor + 1;
    && Recorded(s, q)
    && (forall i :: 0 <= i < |s.store.rows| && s.store.rows[i].state.Pending? ==> s.store.rows[i].evt.seqNo != q)
    && match s.phase
       case Idle => true
       case Awaiting(req) => req.last == s.store.cursor && forall i :: 0 <= i < |req.events| ==> req.events[i].seqNo != q
       case Marking(_, ack, _) => ack == s.store.cursor
       case Writing(ack) => ack == s.store.cursor
  }

  /** A crash after the pending rows were deleted but before the cursor was written wedges. */
  lemma {:induction false} CrashBeforeCursorWedges(s: System)
    requires Inv(s) && s.phase.Writing? && s.phase.ack > s.store.cursor >= 0
    ensures Wedged(Take(s, Crash))
  {
    assert Recorded(s, s.store.cursor + 1);
    KnowledgeStays(s, Take(s, Crash));
  }

  /** A crash after the conflicted rows were marked, but before the acked ones were deleted, wedges
      exactly if the event after the cursor is no longer pending: then it was conflicted. */
  lemma {:induction false} CrashWhileMarkingWedges(s: System)
    requires Inv(s) && s.phase.Marking? && s.phase.ack > s.store.cursor >= 0
    ensures Wedged(Take(s, Crash)) <==>
            forall i :: 0 <= i < |s.store.rows| && s.store.rows[i].evt.seqNo == s.store.cursor + 1 ==> s.store.rows[i].state.Held?
  {
    assert Recorded(s, s.store.cursor + 1);
    KnowledgeStays(s, Take(s, Crash));
  }

  lemma {:induction false} FirstBatch(evt: SyncEvent)
    ensures PendingBatch(Store(1, 0, [OutboxRow(evt, Pending)]), BATCH_SIZE) == [evt]
  {
    var rows := [OutboxRow(evt, Pending)];
    assert rows[..0] == [] && PendingEvents(rows[..0]) == [];
    assert PendingEvents(rows) == [evt];
    SortOfSorted([evt], EventSeq);
  }

  /** The system after a new agent has enqueued and sent its first event. */
  function FirstSent(pc: nat, server: Server, evt: SyncEvent): System {
    var req := Request(0, [evt]);
    System(pc, Store(1, 0, [OutboxRow(evt, Pending)]), {}, Awaiting(req), {Serving(req, [])}, server, map[], map[1 := evt], [])
  }

  lemma {:induction false} SendFirst(pc: nat, server: Server, evt: SyncEvent)
    requires evt.seqNo == 1 && evt.id !in server.offline
    ensures var steps := [Allocate] + ([Insert(evt)] + ([Send] + []));
            CanRun(Init(pc, server), steps) && After(Init(pc, server), steps) == FirstSent(pc, server, evt)
  {
    hide CanRun, After, PendingBatch;
    FirstBatch(evt);
    var s0 := Init(pc, server);
    var s1 := Take(s0, Allocate);
    var s2 := Take(s1, Insert(evt));
    assert s2.store == Store(1, 0, [OutboxRow(evt, Pending)]) && s2.handedOut == {};
    var s3 := Take(s2, Send);
    assert s3.serving == {Serving(Request(0, [evt]), [])};
    RunNothing(s3);
    RunNext(s2, Send, []);
    RunNext(s1, Insert(evt), [Send] + []);
    RunNext(s0, Allocate, [Insert(evt)] + ([Send] + []));
  }

  /** The server answers the event as conflicted, and the answer reaches the agent. */
  lemma {:induction false} AnswerFirst(pc: nat, server: Server, evt: SyncEvent, ctx: Context, now: int)
    requires evt.seqNo == 1 && ctx.pc == pc && Process(server, evt, ctx, now).result.state.Conflicted?
    ensures var a, s, req := Process(server, evt, ctx, now), FirstSent(pc, server, evt), Request(0, [evt]);
            var steps := [Serve(Serving(req, []), ctx, now)] + ([Deliver(Serving(req, [a.result]))] + []);
            && CanRun(s, steps) && After(s, steps).pc == pc && After(s, steps).store == s.store
            && After(s, steps).phase == Marking([a.result], 1, 0) && After(s, steps).server == a.server
            && After(s, steps).inserted == s.inserted && After(s, steps).handedOut == {}
            && a.result.id == evt.id
  {
    hide CanRun, After, ComputeAckSeq, Advance;
    var r := Process(server, evt, ctx, now).result;
    ResultNamesEvent(server, evt, ctx, now);
    hide Process;
    assert [r][0] == r && [evt][0] == evt;
    ConsecutiveAnswersAreAcked([r], [evt], 0);
    var req := Request(0, [evt]);
    var s := FirstSent(pc, server, evt);
    var serve := Serve(Serving(req, []), ctx, now);
    var s1 := Take(s, serve);
    assert [] + [r] == [r];
    var deliver := Deliver(Serving(req, [r]));
    var s2 := Take(s1, deliver);
    RunNothing(s2);
    RunNext(s1, deliver, []);
    RunNext(s, serve, [deliver] + []);
  }

  /** The agent crashes after it has marked the event. */
  lemma {:induction false} MarkAndCrash(s: System, evt: SyncEvent, r: SyncResult)
    requires s.store == Store(1, 0, [OutboxRow(evt, Pending)]) && s.phase == Marking([r], 1, 0)
    requires r.state.Conflicted? && r.id == evt.id
    requires evt.seqNo == 1 && s.inserted == map[1 := evt] && evt.id in s.server.offline
    ensures var steps := [Mark] + ([Crash] + []);
            && CanRun(s, steps) && Wedged(After(s, steps)) && After(s, steps).store == Store(1, 0, [OutboxRow(evt, Held)])
  {
    hide CanRun, After;
    var s1 := Take(s, Mark);
    assert s1.store.rows == [OutboxRow(evt, Held)];
    var s2 := Take(s1, Crash);
    RunNothing(s2);
    RunNext(s1, Crash, []);
    RunNext(s, Mark, [Crash] + []);
  }

  /** An agent's first event is an extension, and its PC has no active session. */
  function WedgeSteps(evt: SyncEvent, ctx: Context, now: int, r: SyncResult): seq<Step> {
    var req := Request(0, [evt]);
    [Allocate] + ([Insert(evt)] + ([Send] + []))
    + (([Serve(Serving(req, []), ctx, now)] + ([Deliver(Serving(req, [r]))] + [])) + ([Mark] + ([Crash] + [])))
  }

  /** A wedge is reached from a new agent, on any server, in seven steps. */
  lemma {:induction false} WedgeIsReached(pc: nat, server: Server, evt: SyncEvent, ctx: Context, now: int)
    requires forall id :: id in server.offline ==> server.offline[id].pc != pc
    requires forall i :: 0 <= i < |server.sessions| ==> !IsActiveOn(server.sessions[i], pc)
    requires evt.seqNo == 1 && evt.etype.SessionExtended? && evt.id !in server.offline && ctx.pc == pc
    ensures var steps := WedgeSteps(evt, ctx, now, Process(server, evt, ctx, now).result);
            && CanRun(Init(pc, server), steps) && Wedged(After(Init(pc, server), steps))
            && After(Init(pc, server), steps).store == Store(1, 0, [OutboxRow(evt, Held)])
  {
    hide CanRun, After, Take, CanTake, Wedged, Pricing.Price;
    var r := Process(server, evt, ctx, now).result;
    ConflictMatrix(server, evt, ctx, now);
    NewVerdict(server, evt, ctx, now);
    hide Process;
    SendFirst(pc, server, evt);
    AnswerFirst(pc, server, evt, ctx, now);
    var s1, req := FirstSent(pc, server, evt), Request(0, [evt]);
    var answer := [Serve(Serving(req, []), ctx, now)] + ([Deliver(Serving(req, [r]))] + []);
    var s2 := After(s1, answer);
    MarkAndCrash(s2, evt, r);
    var crash := [Mark] + ([Crash] + []);
    RunConcat(s1, answer, crash);
    RunConcat(Init(pc, server), [Allocate] + ([Insert(evt)] + ([Send] + [])), answer + crash);
  }

  lemma {:induction false} WedgedSendStays(s: System)
    requires Wedged(s) && CanTake(s, Send)
    ensures Wedged(Take(s, Send))
  {
    hide PendingBatch;
    var batch := PendingBatch(s.store, BATCH_SIZE);
    var p := PendingEvents(s.store.rows);
    forall i | 0 <= i < |batch|
      ensures batch[i].seqNo != s.store.cursor + 1
    {
      var k := BatchIsFromPending(s.store, BATCH_SIZE, i);
      var j := PendingIsFromRow(s.store.rows, k);
    }
    KnowledgeStays(s, Take(s, Send));
  }

  lemma {:induction false} BatchIsFromPending(o: Store, limit: nat, i: nat) returns (k: nat)
    requires i < |PendingBatch(o, limit)|
    ensures k < |PendingEvents(o.rows)| && PendingEvents(o.rows)[k] == PendingBatch(o, limit)[i]
  {
    var p := PendingEvents(o.rows);
    SortMembers(p, EventSeq);
    assert PendingBatch(o, limit)[i] in Sort(p, EventSeq);
    k :| 0 <= k < |p| && p[k] == PendingBatch(o, limit)[i];
  }

  lemma {:induction false} WedgedDeliverStays(s: System, st: Step)
    requires Inv(s) && Wedged(s) && CanTake(s, st) && st.Deliver?
    ensures Wedged(Take(s, st))
  {
    hide ComputeAckSeq, Advance;
    var sv, q := st.sv, s.store.cursor + 1;
    assert Sound(s, sv);
    AgentAgreesWithServer(sv.req.last, sv.done);
    AckIsGreatest(sv.req.last, sv.done);
    assert forall i :: 0 <= i < |sv.done| ==> sv.done[i].seqNo != q;
    assert !HasTerminal(q, sv.done);
    KnowledgeStays(s, Take(s, st));
  }

  lemma {:induction false} WedgedStays(s: System, st: Step)
    requires Inv(s) && Wedged(s) && CanTake(s, st)
    ensures Wedged(Take(s, st)) && Take(s, st).store.cursor == s.store.cursor
  {
    hide Process, Do, PendingBatch, PruneRows, ComputeAckSeq, Advance, Inv, RecordedUpTo, Sound;
    var t := Take(s, st);
    match st
    case Send => WedgedSendStays(s);
    case Deliver(_) => WedgedDeliverStays(s, st);
    case PruneAcked =>
      PruneKeeps(s.store.rows, s.phase.ack);
      assert forall i :: 0 <= i < |t.store.rows| ==> t.store.rows[i] in s.store.rows;
      KnowledgeStays(s, t);
    case Insert(evt) =>
      InsertKeepsAway(s, evt);
      KnowledgeStays(s, t);
    case _ =>
      TakeKeepsIds(s, st);
      KnowledgeStays(s, t);
  }

  lemma {:induction false} InsertKeepsAway(s: System, evt: SyncEvent)
    requires Inv(s) && Wedged(s) && evt.seqNo in s.handedOut
    ensures evt.seqNo != s.store.cursor + 1 && evt.seqNo !in s.inserted
  {
  }

  /** From then on no run ever advances the cursor: the outbox never drains again, although
      nothing is lost. */
  lemma {:induction false} WedgedForever(s: System, steps: seq<Step>)
    requires CanRun(s, steps) && Inv(s) && Wedged(s)
    ensures Wedged(After(s, steps)) && After(s, steps).store.cursor == s.store.cursor
    decreases |steps|
  {
    hide CanTake, Take, Inv, Wedged;
    if |steps| > 0 {
      TakeKeepsInv(s, steps[0]);
      WedgedStays(s, steps[0]);
      WedgedForever(Take(s, steps[0]), steps[1..]);
    }
  }

  // ---- Exactly when the cursor stops -------------------------------------------

  ghost predicate PendingAhead(o: Store) {
    forall row :: row in o.rows && row.state.Pending? ==> row.evt.seqNo > o.cursor
  }

  ghost predicate HeldRecorded(rows: seq<OutboxRow>, offline: map<nat, OfflineRow>) {
    forall row :: row in rows && row.state.Held? ==> row.evt.id in offline
  }

  ghost predicate NamesEvents(sv: Serving) {
    forall i :: 0 <= i < |sv.done| ==> i < |sv.req.events| && sv.done[i].id == sv.req.events[i].id
  }

  ghost predicate ResultsRecorded(phase: Phase, offline: map<nat, OfflineRow>) {
    phase.Marking? ==> forall r :: r in phase.results ==> r.id in offline
  }

  /** Rows kept as conflicted are recorded, pending ones are above the cursor, and results name
      the events they answer. */
  ghost predicate Tidy(s: System) {
    && PendingAhead(s.store) && HeldRecorded(s.store.rows, s.server.offline)
    && (forall sv :: sv in s.serving ==> NamesEvents(sv))
    && ResultsRecorded(s.phase, s.server.offline) && InStep(s)
  }

  ghost predicate IsPending(o: Store, e: SyncEvent) {
    exists i :: 0 <= i < |o.rows| && o.rows[i] == OutboxRow(e, Pending)
  }

  /** The uploader waits for an answer about pending events from the cursor on, and applies none
      that lies behind the cursor. */
  ghost predicate InStep(s: System) {
    match s.phase
    case Idle => true
    case Awaiting(req) => req.last == s.store.cursor && forall i :: 0 <= i < |req.events| ==> IsPending(s.store, req.events[i])
    case Marking(_, ack, _) => ack >= s.store.cursor
    case Writing(ack) => ack >= s.store.cursor
  }

  lemma {:induction false} InsertKeepsPending(o: Store, e: SyncEvent, b: SyncEvent)
    requires IsPending(o, b)
    ensures IsPending(InsertRow(o, e), b)
  {
    var i :| 0 <= i < |o.rows| && o.rows[i] == OutboxRow(b, Pending);
    assert InsertRow(o, e).rows[i] == o.rows[i];
  }

  lemma {:induction false} RowsKeepPending(o: Store, p: Store, b: SyncEvent)
    requires IsPending(o, b) && p.rows == o.rows
    ensures IsPending(p, b)
  {
  }

  lemma {:induction false} SentArePending(o: Store, limit: nat, i: nat)
    requires i < |PendingBatch(o, limit)|
    ensures IsPending(o, PendingBatch(o, limit)[i])
  {
    var k := BatchIsFromPending(o, limit, i);
    var j := PendingIsFromRow(o.rows, k);
  }

  /** No pending row is lost. */
  lemma {:induction false} SamePhaseInStep(s: System, t: System)
    requires InStep(s) && (t.phase == s.phase || t.phase.Idle?) && t.store.cursor == s.store.cursor
    requires forall e :: IsPending(s.store, e) ==> IsPending(t.store, e)
    ensures InStep(t)
  {
    hide IsPending;
  }

  lemma {:induction false} InsertKeepsAllPending(s: System, evt: SyncEvent)
    requires CanTake(s, Insert(evt))
    ensures forall e :: IsPending(s.store, e) ==> IsPending(Take(s, Insert(evt)).store, e)
  {
    forall e | IsPending(s.store, e)
      ensures IsPending(Take(s, Insert(evt)).store, e)
    {
      InsertKeepsPending(s.store, evt, e);
    }
  }

  lemma {:induction false} SameRowsPending(o: Store, p: Store)
    requires p.rows == o.rows
    ensures forall e :: IsPending(o, e) ==> IsPending(p, e)
  {
  }

  lemma {:induction false} SentInStep(s: System)
    requires CanTake(s, Send)
    ensures InStep(Take(s, Send))
  {
    hide PendingBatch, IsPending;
    forall i | 0 <= i < |PendingBatch(s.store, BATCH_SIZE)|
      ensures IsPending(s.store, PendingBatch(s.store, BATCH_SIZE)[i])
    {
      SentArePending(s.store, BATCH_SIZE, i);
    }
  }

  lemma {:induction false} TakeStaysInStep(s: System, st: Step)
    requires CanTake(s, st) && InStep(s)
    ensures InStep(Take(s, st))
  {
    hide Process, Execute, PendingBatch, ComputeAckSeq, Advance, PruneRows, MarkRows, IsPending;
    var t := Take(s, st);
    match st
    case Send => SentInStep(s);
    case Deliver(sv) =>
      AgentAgreesWithServer(sv.req.last, sv.done);
      AckIsGreatest(sv.req.last, sv.done);
    case Insert(evt) =>
      InsertKeepsAllPending(s, evt);
      SamePhaseInStep(s, t);
    case Mark =>
    case PruneAcked =>
    case WriteCursor =>
    case _ =>
      SameRowsPending(s.store, t.store);
      SamePhaseInStep(s, t);
  }

  lemma {:induction false} InsertStaysAhead(s: System, st: Step)
    requires Inv(s) && PendingAhead(s.store) && HeldRecorded(s.store.rows, s.server.offline) && CanTake(s, st) && st.Insert?
    ensures PendingAhead(InsertRow(s.store, st.evt)) && HeldRecorded(InsertRow(s.store, st.evt).rows, s.server.offline)
  {
    hide NothingLost, PhaseSound, ServerAgrees, Sound;
    assert RecordedUpTo(s, s.store.cursor) && !Recorded(s, st.evt.seqNo);
    assert st.evt.seqNo > s.store.cursor;
  }

  lemma {:induction false} DeliveredAreRecorded(s: System, sv: Serving)
    requires Sound(s, sv) && NamesEvents(sv)
    ensures forall r :: r in sv.done ==> r.id in s.server.offline
  {
    hide RecordedUpTo;
    forall r | r in sv.done
      ensures r.id in s.server.offline
    {
      var i :| 0 <= i < |sv.done| && sv.done[i] == r;
      assert Ours(s, sv.req.events[i]) && Recorded(s, sv.done[i].seqNo);
    }
  }

  lemma {:induction false} PruneStaysAhead(o: Store, ack: int, offline: map<nat, OfflineRow>)
    requires PendingAhead(o) && HeldRecorded(o.rows, offline)
    ensures PendingAhead(Prune(o, ack)) && HeldRecorded(Prune(o, ack).rows, offline)
  {
    PruneKeeps(o.rows, ack);
    hide PruneRows;
    assert forall row :: row in PruneRows(o.rows, ack) ==> row in o.rows;
  }

  lemma {:induction false} MarkStaysAhead(o: Store, r: SyncResult, offline: map<nat, OfflineRow>)
    requires PendingAhead(o) && HeldRecorded(o.rows, offline) && r.id in offline
    ensures PendingAhead(o.(rows := MarkRows(o.rows, r))) && HeldRecorded(MarkRows(o.rows, r), offline)
  {
    var rows := MarkRows(o.rows, r);
    forall row | row in rows
      ensures row.state.Pending? ==> row in o.rows
      ensures row.state.Held? ==> row.evt.id in offline
    {
      var i :| 0 <= i < |rows| && rows[i] == row;
      assert o.rows[i] in o.rows && row == MarkRow(o.rows[i], r);
    }
  }

  lemma {:induction false} WriteStaysAhead(s: System)
    requires PendingAhead(s.store) && PhaseSound(s) && s.phase.Writing?
    ensures PendingAhead(AdvanceCursor(s.store, s.phase.ack)) && AdvanceCursor(s.store, s.phase.ack).rows == s.store.rows
    ensures s.store.cursor <= AdvanceCursor(s.store, s.phase.ack).cursor
  {
    hide RecordedUpTo;
    forall row | row in s.store.rows && row.state.Pending?
      ensures row.evt.seqNo > s.phase.ack
    {
      var i :| 0 <= i < |s.store.rows| && s.store.rows[i] == row;
    }
  }

  lemma {:induction false} OneMoreNamed(sv: Serving, r: SyncResult)
    requires NamesEvents(sv) && |sv.done| < |sv.req.events| && r.id == sv.req.events[|sv.done|].id
    ensures NamesEvents(sv.(done := sv.done + [r]))
  {
  }

  lemma {:induction false} RecordedStays(s: System, t: System)
    requires forall id :: id in s.server.offline ==> id in t.server.offline
    ensures HeldRecorded(s.store.rows, s.server.offline) ==> HeldRecorded(s.store.rows, t.server.offline)
    ensures ResultsRecorded(s.phase, s.server.offline) ==> ResultsRecorded(s.phase, t.server.offline)
  {
  }

  lemma {:induction false} TakeKeepsNames(s: System, st: Step)
    requires CanTake(s, st) && forall sv :: sv in s.serving ==> NamesEvents(sv)
    ensures forall sv :: sv in Take(s, st).serving ==> NamesEvents(sv)
  {
    hide Process, Execute, PendingBatch, ComputeAckSeq, Advance, PruneRows, MarkRows, NamesEvents;
    if st.Send? {
      NothingNamed(Request(s.store.cursor, PendingBatch(s.store, BATCH_SIZE)));
    } else if st.Serve? {
      ResultNamesEvent(s.server, st.sv.req.events[|st.sv.done|], st.ctx, st.now);
      OneMoreNamed(st.sv, Process(s.server, st.sv.req.events[|st.sv.done|], st.ctx, st.now).result);
    }
  }

  lemma {:induction false} TakeKeepsRecorded(s: System, st: Step)
    requires Inv(s) && Tidy(s) && CanTake(s, st)
    ensures ResultsRecorded(Take(s, st).phase, Take(s, st).server.offline)
  {
    TakeKeepsIds(s, st);
    RecordedStays(s, Take(s, st));
    hide Process, Execute, PendingBatch, ComputeAckSeq, Advance, PruneRows, MarkRows, PendingAhead, HeldRecorded, InStep,
         NamesEvents, RecordedUpTo, NothingLost, ServerAgrees, Sound, SeqsNameEvents, RowsAreOurs, PhaseSound;
    if st.Deliver? {
      DeliveredAreRecorded(s, st.sv);
    }
  }

  lemma {:induction false} TakeStaysAhead(s: System, st: Step)
    requires Inv(s) && Tidy(s) && CanTake(s, st)
    ensures PendingAhead(Take(s, st).store) && HeldRecorded(Take(s, st).store.rows, Take(s, st).server.offline)
    ensures s.store.cursor <= Take(s, st).store.cursor
  {
    TakeKeepsIds(s, st);
    RecordedStays(s, Take(s, st));
    hide Process, Execute, PendingBatch, ComputeAckSeq, Advance, PruneRows, MarkRows, PendingAhead, HeldRecorded, InStep,
         NamesEvents, RecordedUpTo, NothingLost, ServerAgrees, Sound, SeqsNameEvents, RowsAreOurs, PhaseSound;
    if st.Allocate? {
      SameRowsAhead(s.store, Take(s, st).store);
    } else if st.Insert? {
      InsertStaysAhead(s, st);
    } else if st.Mark? {
      MarkStaysAhead(s.store, s.phase.results[s.phase.k], s.server.offline);
    } else if st.PruneAcked? {
      PruneStaysAhead(s.store, s.phase.ack, s.server.offline);
    } else if st.WriteCursor? {
      WriteStaysAhead(s);
    }
  }

  lemma {:induction false} TakeKeepsTidy(s: System, st: Step)
    requires Inv(s) && Tidy(s) && CanTake(s, st)
    ensures Tidy(Take(s, st)) && s.store.cursor <= Take(s, st).store.cursor
  {
    hide Take, CanTake, Inv, PendingAhead, HeldRecorded, NamesEvents, ResultsRecorded, InStep;
    TakeKeepsNames(s, st);
    TakeKeepsRecorded(s, st);
    TakeStaysAhead(s, st);
    TakeStaysInStep(s, st);
  }

  lemma {:induction false} SameRowsAhead(o: Store, p: Store)
    requires PendingAhead(o) && p.rows == o.rows && p.cursor == o.cursor
    ensures PendingAhead(p)
  {
  }

  lemma {:induction false} NothingNamed(req: Request)
    ensures NamesEvents(Serving(req, []))
  {
  }

  lemma {:induction false} TidyHolds(s: System, steps: seq<Step>)
    requires CanRun(s, steps) && Inv(s) && Tidy(s)
    ensures Tidy(After(s, steps)) && s.store.cursor <= After(s, steps).store.cursor
    decreases |steps|
  {
    hide CanTake, Take, Inv, Tidy;
    if |steps| > 0 {
      TakeKeepsInv(s, steps[0]);
      TakeKeepsTidy(s, steps[0]);
      TidyHolds(Take(s, steps[0]), steps[1..]);
    }
  }

  /** The number after the cursor was handed out, no enqueue still holds it, and no pending row
      carries it. */
  predicate Stuck(s: System) {
    var q := s.store.cursor + 1;
    && q <= s.store.counter && q !in s.handedOut
    && forall i :: 0 <= i < |s.store.rows| && s.store.rows[i].state.Pending? ==> s.store.rows[i].evt.seqNo != q
  }

  /** Some run moves the cursor. */
  ghost predicate CanAdvance(s: System) {
    exists steps :: CanRun(s, steps) && After(s, steps).store.cursor > s.store.cursor
  }

  /** A reply that is being applied moves the cursor. */
  predicate Moving(s: System) {
    (s.phase.Marking? || s.phase.Writing?) && s.phase.ack > s.store.cursor
  }

  lemma {:induction false} StuckIsHoleOrWedge(s: System)
    requires Inv(s) && Tidy(s) && Stuck(s) && !Moving(s) && s.store.cursor >= 0
    ensures Hole(s, s.store.cursor + 1) || Wedged(s)
  {
    var q := s.store.cursor + 1;
    if q in s.inserted {
      assert Kept(s, s.inserted[q]) || Recorded(s, q);
    }
  }

  lemma {:induction false} StuckForever(s: System, steps: seq<Step>)
    requires CanRun(s, steps) && Inv(s) && Tidy(s) && Stuck(s) && !Moving(s) && s.store.cursor >= 0
    ensures After(s, steps).store.cursor == s.store.cursor
  {
    hide CanRun, After, Inv, Tidy, Wedged;
    StuckIsHoleOrWedge(s);
    if Wedged(s) {
      WedgedForever(s, steps);
    } else {
      HoleBlocksCursor(s, steps, s.store.cursor + 1);
      TidyHolds(s, steps);
    }
  }

  /** A reply that moves the cursor only has to be applied to its end. */
  lemma {:induction false} MovingAdvances(s: System)
    requires Moving(s) && (s.phase.Marking? ==> s.phase.k <= |s.phase.results|)
    ensures CanAdvance(s)
    decreases if s.phase.Marking? then |s.phase.results| - s.phase.k + 1 else 0
  {
    hide CanRun, After, PruneRows, MarkRows;
    var st := if s.phase.Writing? then WriteCursor else if s.phase.k < |s.phase.results| then Mark else PruneAcked;
    var t := Take(s, st);
    if s.phase.Writing? {
      RunOne(s, WriteCursor);
    } else {
      MovingAdvances(t);
      var steps :| CanRun(t, steps) && After(t, steps).store.cursor > t.store.cursor;
      RunNext(s, st, steps);
    }
  }

  lemma {:induction false} PendingIsListed(rows: seq<OutboxRow>, i: nat)
    requires i < |rows| && rows[i].state.Pending?
    ensures rows[i].evt in PendingEvents(rows)
  {
    if i < |rows| - 1 {
      PendingIsListed(rows[..|rows| - 1], i);
    }
  }

  lemma {:induction false} NextIsSent(s: System)
    requires PendingAhead(s.store)
    requires exists i :: 0 <= i < |s.store.rows| && s.store.rows[i].state.Pending? && s.store.rows[i].evt.seqNo == s.store.cursor + 1
    ensures HoldsSeq(PendingBatch(s.store, BATCH_SIZE), s.store.cursor + 1)
  {
    var i :| 0 <= i < |s.store.rows| && s.store.rows[i].state.Pending? && s.store.rows[i].evt.seqNo == s.store.cursor + 1;
    PendingIsListed(s.store.rows, i);
    var p := PendingEvents(s.store.rows);
    forall e | e in p
      ensures e.seqNo > s.store.cursor
    {
      var k :| 0 <= k < |p| && p[k] == e;
      var j := PendingIsFromRow(s.store.rows, k);
    }
    assert HoldsSeq(p, s.store.cursor + 1);
    NextIsInBatch(s.store, BATCH_SIZE);
  }

  /** With the next event pending, one undisturbed round moves the cursor. */
  lemma {:induction false} PendingAdvances(s: System)
    requires s.phase.Idle? && PendingAhead(s.store)
    requires exists i :: 0 <= i < |s.store.rows| && s.store.rows[i].state.Pending? && s.store.rows[i].evt.seqNo == s.store.cursor + 1
    ensures CanAdvance(s)
  {
    hide CanRun, After, PendingBatch, PendingAhead;
    var ctx, times := Context(0, s.pc, None, []), Pricing.Repeat(0, BATCH_SIZE);
    NextIsSent(s);
    QuietRoundIsUpload(s, ctx, times);
    UploadMovesExactly(s.store, s.server, ctx, times);
    assert After(s, RoundSteps(s, ctx, times)).store.cursor > s.store.cursor;
  }

  lemma {:induction false} BoundExists(ids: set<nat>) returns (n: nat)
    ensures forall id :: id in ids ==> id < n
  {
    if ids == {} {
      n := 0;
    } else {
      var id :| id in ids;
      n := BoundExists(ids - {id});
      assert forall x :: x in ids ==> x == id || x in ids - {id};
      n := if id < n then n else id + 1;
    }
  }

  lemma {:induction false} FreshIdExists(s: System) returns (id: nat)
    ensures FreshId(s, id)
  {
    var ids := s.server.offline.Keys + set q | q in s.inserted :: s.inserted[q].id;
    id := BoundExists(ids);
    assert forall q :: q in s.inserted ==> s.inserted[q].id in ids;
  }

  /** From any other phase, the agent can restart first. */
  lemma {:induction false} PendingAdvancesAnyway(s: System)
    requires PendingAhead(s.store)
    requires exists i :: 0 <= i < |s.store.rows| && s.store.rows[i].state.Pending? && s.store.rows[i].evt.seqNo == s.store.cursor + 1
    ensures CanAdvance(s)
  {
    hide CanRun, After, PendingAhead;
    var t := Take(s, Crash);
    assert t.store == s.store;
    PendingAdvances(t);
    var steps :| CanRun(t, steps) && After(t, steps).store.cursor > t.store.cursor;
    RunNext(s, Crash, steps);
  }

  /** An enqueue that holds the next number can still finish. */
  lemma {:induction false} HandedOutAdvances(s: System)
    requires Inv(s) && Tidy(s) && s.store.cursor + 1 in s.handedOut
    ensures CanAdvance(s)
  {
    hide CanRun, After, Inv, InStep;
    var id := FreshIdExists(s);
    var evt := SyncEvent(id, s.store.cursor + 1, OrderCreated, 0, Payload(None, Missing, Missing));
    var t := Take(s, Insert(evt));
    InsertStaysAhead(s, Insert(evt));
    assert t.store.rows[|s.store.rows|] == OutboxRow(evt, Pending);
    PendingAdvancesAnyway(t);
    var steps :| CanRun(t, steps) && After(t, steps).store.cursor > t.store.cursor;
    RunNext(s, Insert(evt), steps);
  }

  /** The number can still be allocated. */
  lemma {:induction false} UnallocatedAdvances(s: System)
    requires Inv(s) && Tidy(s) && s.store.cursor == s.store.counter
    ensures CanAdvance(s)
  {
    hide CanRun, After, Inv, Tidy;
    var t := Take(s, Allocate);
    AllocateKeepsInv(s, Allocate);
    TakeKeepsTidy(s, Allocate);
    HandedOutAdvances(t);
    var steps :| CanRun(t, steps) && After(t, steps).store.cursor > t.store.cursor;
    RunNext(s, Allocate, steps);
  }

  lemma {:induction false} CursorWithinCounter(s: System)
    requires Inv(s)
    ensures s.store.cursor <= s.store.counter
  {
    assert s.store.cursor >= 1 ==> Recorded(s, s.store.cursor);
  }

  /** The cursor stops for good if and only if no reply is being applied that moves it and the number
      after it was used up: it belongs to no event, to a conflicted one, or to one that was pruned
      before the cursor was written. */
  lemma {:induction false} StopsForGoodExactly(pc: nat, server: Server, steps: seq<Step>)
    requires forall id :: id in server.offline ==> server.offline[id].pc != pc
    requires CanRun(Init(pc, server), steps)
    ensures var s := After(Init(pc, server), steps);
            CanAdvance(s) <==> Moving(s) || !Stuck(s)
  {
    hide CanRun, After, Inv, Tidy, Stuck, CanAdvance, Moving;
    InitIsTidy(pc, server);
    InvHolds(Init(pc, server), steps);
    TidyHolds(Init(pc, server), steps);
    MarksInOrder(Init(pc, server), steps);
    AdvancesExactly(After(Init(pc, server), steps));
  }

  lemma {:induction false} InitIsTidy(pc: nat, server: Server)
    requires forall id :: id in server.offline ==> server.offline[id].pc != pc
    ensures Inv(Init(pc, server)) && Tidy(Init(pc, server))
  {
  }

  predicate MarksWithin(s: System) {
    s.phase.Marking? ==> s.phase.k <= |s.phase.results|
  }

  lemma {:induction false} TakeMarksWithin(s: System, st: Step)
    requires CanTake(s, st) && MarksWithin(s)
    ensures MarksWithin(Take(s, st))
  {
    hide Process, Execute, PendingBatch, ComputeAckSeq, Advance, PruneRows, MarkRows;
  }

  lemma {:induction false} MarksInOrder(s: System, steps: seq<Step>)
    requires CanRun(s, steps) && MarksWithin(s)
    ensures MarksWithin(After(s, steps))
    decreases |steps|
  {
    hide CanTake, Take, MarksWithin;
    if |steps| > 0 {
      TakeMarksWithin(s, steps[0]);
      MarksInOrder(Take(s, steps[0]), steps[1..]);
    }
  }

  lemma {:induction false} AdvancesExactly(s: System)
    requires Inv(s) && Tidy(s) && MarksWithin(s) && s.store.cursor >= 0
    ensures CanAdvance(s) <==> Moving(s) || !Stuck(s)
  {
    hide CanRun, After, Inv, Tidy;
    CursorWithinCounter(s);
    if Moving(s) {
      MovingAdvances(s);
    } else if Stuck(s) {
      if steps :| CanRun(s, steps) && After(s, steps).store.cursor > s.store.cursor {
        StuckForever(s, steps);
      }
    } else if s.store.cursor == s.store.counter {
      UnallocatedAdvances(s);
    } else if s.store.cursor + 1 in s.handedOut {
      HandedOutAdvances(s);
    } else {
      TidyIsAhead(s);
      PendingAdvancesAnyway(s);
    }
  }

  lemma {:induction false} TidyIsAhead(s: System)
    requires Tidy(s)
    ensures PendingAhead(s.store)
  {
  }
}
