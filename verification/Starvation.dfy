/** Which pending events are sent, and which the server never hears of once the cursor has stopped. */
module Starvation {
  import opened Domain
  import opened Sorting
  import opened AckCursor
  import Pricing
  import opened SyncServer
  import opened Lifecycle
  import opened Outbox
  import opened SyncUpload
  import opened Protocol
  import opened Stopping

  // ---- A blocked outbox --------------------------------------------------------

  /** No result about an event of the block calls it conflicted. */
  ghost predicate Spares(rs: seq<SyncResult>, block: set<SyncEvent>) {
    forall r, b :: r in rs && b in block && r.id == b.id ==> !r.state.Conflicted?
  }

  /** No reply ever reaches number q: it is a hole, or the cursor is wedged below it. */
  ghost predicate Barred(s: System, q: nat) {
    Hole(s, q) || (Wedged(s) && q == s.store.cursor + 1)
  }

  /** Above such a number a full batch of events is pending that the server has recorded already,
      and every reply under way leaves them pending. */
  ghost predicate Blocked(s: System, q: nat, block: set<SyncEvent>) {
    && Barred(s, q) && |block| == BATCH_SIZE
    && (forall b :: b in block ==> b.seqNo > q && b.id in s.server.offline && IsPending(s.store, b))
    && (forall sv :: sv in s.serving ==> Spares(sv.done, block))
    && (s.phase.Marking? ==> Spares(s.phase.results, block))
  }

  /** A younger event that has never been sent. */
  ghost predicate Unheard(s: System, e: SyncEvent, block: set<SyncEvent>) {
    && Ours(s, e) && e.id !in s.server.offline
    && (forall b :: b in block ==> b.seqNo < e.seqNo)
    && forall sv :: sv in s.serving ==> e !in sv.req.events
  }

  /** A pending event is listed somewhere before all younger ones. */
  lemma {:induction false} OlderIsBefore(o: Store, b: SyncEvent, i: nat)
    requires IsPending(o, b) && i < |Sort(PendingEvents(o.rows), EventSeq)|
    requires b.seqNo < Sort(PendingEvents(o.rows), EventSeq)[i].seqNo
    ensures b in Sort(PendingEvents(o.rows), EventSeq)[..i]
  {
    var p := PendingEvents(o.rows);
    var sorted := Sort(p, EventSeq);
    SortCorrect(p, EventSeq);
    SortMembers(p, EventSeq);
    var k :| 0 <= k < |o.rows| && o.rows[k] == OutboxRow(b, Pending);
    PendingIsListed(o.rows, k);
    hide PendingEvents, Sort;
    var j :| 0 <= j < |sorted| && sorted[j] == b;
    assert j >= i ==> i == j || EventSeq(sorted[i]) <= EventSeq(sorted[j]);
    assert sorted[..i][j] == b;
  }

  /** An event with a batch of older pending ones is not in the next batch. */
  lemma {:induction false} YoungerIsNotSent(o: Store, block: set<SyncEvent>, e: SyncEvent)
    requires |block| == BATCH_SIZE && forall b :: b in block ==> IsPending(o, b) && b.seqNo < e.seqNo
    ensures e !in PendingBatch(o, BATCH_SIZE)
  {
    hide IsPending, PendingEvents, Sort;
    var sorted := Sort(PendingEvents(o.rows), EventSeq);
    if e in PendingBatch(o, BATCH_SIZE) {
      var i :| 0 <= i < |PendingBatch(o, BATCH_SIZE)| && PendingBatch(o, BATCH_SIZE)[i] == e;
      forall b | b in block
        ensures b in Elements(sorted[..i])
      {
        OlderIsBefore(o, b, i);
      }
      SubsetIsSmaller(block, Elements(sorted[..i]));
      assert false;
    }
  }

  lemma {:induction false} BarredStays(s: System, st: Step, q: nat)
    requires Inv(s) && CanTake(s, st) && Barred(s, q)
    ensures Barred(Take(s, st), q)
  {
    hide Inv, Hole, Wedged, Take, CanTake;
    if Hole(s, q) {
      HoleStays(s, st, q);
    } else {
      WedgedStays(s, st);
    }
  }

  lemma {:induction false} BarredNotReached(s: System, q: nat)
    requires Inv(s) && Barred(s, q) && s.phase.Marking?
    ensures s.phase.ack < q
  {
    hide Sound, NothingLost, ServerAgrees;
    if Hole(s, q) {
      assert RecordedUpTo(s, s.phase.ack) && !Recorded(s, q);
    }
  }

  /** The server answers `duplicate` for the events of the block. */
  lemma {:induction false} ServeSpares(s: System, st: Step, q: nat, block: set<SyncEvent>)
    requires Inv(s) && CanTake(s, st) && st.Serve? && Blocked(s, q, block)
    ensures Spares(st.sv.done + [Process(s.server, st.sv.req.events[|st.sv.done|], st.ctx, st.now).result], block)
  {
    hide Process, Barred, IsPending;
    var e := st.sv.req.events[|st.sv.done|];
    NewVerdict(s.server, e, st.ctx, st.now);
    ResultNamesEvent(s.server, e, st.ctx, st.now);
    assert Spares(st.sv.done, block);
  }

  lemma {:induction false} MarkKeepsPending(rows: seq<OutboxRow>, r: SyncResult, o: Store, b: SyncEvent)
    requires o.rows == rows && IsPending(o, b) && (r.id == b.id ==> !r.state.Conflicted?)
    ensures IsPending(o.(rows := MarkRows(rows, r)), b)
  {
    var i :| 0 <= i < |rows| && rows[i] == OutboxRow(b, Pending);
    assert MarkRows(rows, r)[i] == rows[i];
  }

  lemma {:induction false} PruneKeepsPending(o: Store, ack: int, b: SyncEvent)
    requires IsPending(o, b) && b.seqNo > ack
    ensures IsPending(Prune(o, ack), b)
  {
    PruneKeeps(o.rows, ack);
    assert OutboxRow(b, Pending) in o.rows;
    assert OutboxRow(b, Pending) in PruneRows(o.rows, ack);
  }

  lemma {:induction false} TakeKeepsBlockPending(s: System, st: Step, q: nat, block: set<SyncEvent>, b: SyncEvent)
    requires Inv(s) && CanTake(s, st) && Blocked(s, q, block) && b in block
    ensures IsPending(Take(s, st).store, b)
  {
    hide Process, Execute, PendingBatch, PruneRows, MarkRows, ComputeAckSeq, Advance, IsPending, Barred, RecordedUpTo, Sound;
    match st
    case Insert(evt) => InsertKeepsPending(s.store, evt, b);
    case Mark => MarkKeepsPending(s.store.rows, s.phase.results[s.phase.k], s.store, b);
    case PruneAcked =>
      BarredNotReached(s, q);
      PruneKeepsPending(s.store, s.phase.ack, b);
    case _ => RowsKeepPending(s.store, Take(s, st).store, b);
  }

  lemma {:induction false} RepliesSpareBlock(s: System, st: Step, q: nat, block: set<SyncEvent>)
    requires Inv(s) && CanTake(s, st) && Blocked(s, q, block)
    ensures forall sv :: sv in Take(s, st).serving ==> Spares(sv.done, block)
    ensures Take(s, st).phase.Marking? ==> Spares(Take(s, st).phase.results, block)
  {
    hide Process, Execute, PendingBatch, PruneRows, MarkRows, ComputeAckSeq, Advance, IsPending, Barred, Spares, Inv;
    if st.Serve? {
      ServeSpares(s, st, q, block);
    } else if st.Send? {
      NothingIsSpared(block);
    }
  }

  lemma {:induction false} BlockedStays(s: System, st: Step, q: nat, block: set<SyncEvent>)
    requires Inv(s) && CanTake(s, st) && Blocked(s, q, block)
    ensures Blocked(Take(s, st), q, block)
  {
    BarredStays(s, st, q);
    TakeKeepsIds(s, st);
    RepliesSpareBlock(s, st, q, block);
    forall b | b in block
      ensures IsPending(Take(s, st).store, b)
    {
      TakeKeepsBlockPending(s, st, q, block, b);
    }
    hide Take, CanTake, IsPending, Barred, Spares, Inv;
  }

  lemma {:induction false} NothingIsSpared(block: set<SyncEvent>)
    ensures Spares([], block)
  {
  }

  lemma {:induction false} UnheardStays(s: System, st: Step, q: nat, block: set<SyncEvent>, e: SyncEvent)
    requires Inv(s) && CanTake(s, st) && Blocked(s, q, block) && Unheard(s, e, block)
    ensures Unheard(Take(s, st), e, block)
  {
    hide Process, Execute, PendingBatch, PruneRows, MarkRows, ComputeAckSeq, Advance, IsPending, Barred, Spares, RecordedUpTo, NothingLost, PhaseSound;
    match st
    case Send => YoungerIsNotSent(s.store, block, e);
    case Serve(sv, ctx, now) =>
      assert Sound(s, sv);
      ProcessRecords(s.server, sv.req.events[|sv.done|], ctx, now);
    case ServeOther(evt, ctx, now) => ProcessRecords(s.server, evt, ctx, now);
    case Staff(act) => StaffKeepsRows(DeskOf(s), act);
    case _ =>
  }

  /** From then on the same batch is sent again and again: in no run does the server ever learn of
      the younger event. */
  lemma {:induction false} YoungerStarves(s: System, steps: seq<Step>, q: nat, block: set<SyncEvent>, e: SyncEvent)
    requires CanRun(s, steps) && Inv(s) && Blocked(s, q, block) && Unheard(s, e, block)
    ensures e.id !in After(s, steps).server.offline && Kept(After(s, steps), e)
    decreases |steps|
  {
    hide CanTake, Take, Inv, Blocked, Unheard;
    if |steps| > 0 {
      TakeKeepsInv(s, steps[0]);
      BlockedStays(s, steps[0], q, block);
      UnheardStays(s, steps[0], q, block, e);
      YoungerStarves(Take(s, steps[0]), steps[1..], q, block, e);
    } else {
      UnheardIsKept(s, e, block);
    }
  }

  lemma {:induction false} UnheardIsKept(s: System, e: SyncEvent, block: set<SyncEvent>)
    requires Inv(s) && Unheard(s, e, block)
    ensures e.id !in s.server.offline && Kept(s, e)
  {
    assert NothingLost(s) && !Recorded(s, e.seqNo);
  }

  /** Every event enqueued later starves, too. */
  lemma {:induction false} NewEventIsUnheard(s: System, evt: SyncEvent, q: nat, block: set<SyncEvent>)
    requires Inv(s) && CanTake(s, Insert(evt)) && Blocked(s, q, block) && forall b :: b in block ==> b.seqNo < evt.seqNo
    ensures Unheard(Take(s, Insert(evt)), evt, block)
  {
    hide RecordedUpTo, NothingLost, PhaseSound, IsPending, Spares;
    forall sv | sv in s.serving
      ensures evt !in sv.req.events
    {
      assert Sound(s, sv);
    }
  }

  // ---- Which pending events are sent -------------------------------------------

  /** The pending events that come before `e`. */
  function OlderPending(o: Store, e: SyncEvent): set<SyncEvent> {
    set b | b in PendingEvents(o.rows) && b.seqNo < e.seqNo
  }

  /** In a list by number, what is older stands before. */
  lemma {:induction false} OlderStandBefore(sorted: seq<SyncEvent>, i: nat, b: SyncEvent)
    requires StrictlyIncreasing(sorted) && i < |sorted|
    ensures b in sorted[..i] <==> b in sorted && b.seqNo < sorted[i].seqNo
  {
    if b in sorted {
      var j :| 0 <= j < |sorted| && sorted[j] == b;
      assert j < i ==> sorted[..i][j] == b;
    }
  }

  lemma {:induction false} SortedIncreases(o: Store)
    requires UniqueIds(o.rows) && UniqueSeqs(o.rows)
    ensures StrictlyIncreasing(Sort(PendingEvents(o.rows), EventSeq))
  {
    var p := PendingEvents(o.rows);
    BatchIsDistinct(o, |p|);
    SortCorrect(p, EventSeq);
    hide PendingEvents, Sort, UniqueIds, UniqueSeqs;
    var sorted := Sort(p, EventSeq);
    forall j, k | 0 <= j < k < |sorted|
      ensures sorted[j].seqNo < sorted[k].seqNo
    {
      assert EventSeq(sorted[j]) <= EventSeq(sorted[k]);
      assert PendingBatch(o, |p|)[j] == sorted[j] && PendingBatch(o, |p|)[k] == sorted[k];
    }
  }

  lemma {:induction false} PrefixIsOlder(o: Store, i: nat)
    requires UniqueIds(o.rows) && UniqueSeqs(o.rows) && i < |Sort(PendingEvents(o.rows), EventSeq)|
    ensures |OlderPending(o, Sort(PendingEvents(o.rows), EventSeq)[i])| == i
  {
    var sorted := Sort(PendingEvents(o.rows), EventSeq);
    SortedIncreases(o);
    SortMembers(PendingEvents(o.rows), EventSeq);
    hide PendingEvents, Sort, UniqueIds, UniqueSeqs;
    assert AllDistinct(sorted[..i]);
    ElementsOfDistinct(sorted[..i]);
    forall b
      ensures b in OlderPending(o, sorted[i]) <==> b in Elements(sorted[..i])
    {
      OlderStandBefore(sorted, i, b);
    }
    assert OlderPending(o, sorted[i]) == Elements(sorted[..i]);
  }

  /** A pending event is in the next batch if and only if fewer than the limit are pending before
      it. */
  lemma {:induction false} SentExactly(o: Store, limit: nat, e: SyncEvent)
    requires UniqueIds(o.rows) && UniqueSeqs(o.rows) && IsPending(o, e)
    ensures e in PendingBatch(o, limit) <==> |OlderPending(o, e)| < limit
  {
    hide UniqueIds, UniqueSeqs, PendingEvents, Sort, OlderPending;
    var k :| 0 <= k < |o.rows| && o.rows[k] == OutboxRow(e, Pending);
    PendingIsListed(o.rows, k);
    SortMembers(PendingEvents(o.rows), EventSeq);
    var sorted := Sort(PendingEvents(o.rows), EventSeq);
    var i :| 0 <= i < |sorted| && sorted[i] == e;
    if i < limit {
      assert PendingBatch(o, limit)[i] == e;
    } else if e in PendingBatch(o, limit) {
      var j :| 0 <= j < |PendingBatch(o, limit)| && PendingBatch(o, limit)[j] == e;
      assert sorted[j] == e;
      PrefixIsOlder(o, j);
    }
    PrefixIsOlder(o, i);
  }

  // ---- No row is repeated ------------------------------------------------------

  lemma {:induction false} PruneUniqueSeqs(rows: seq<OutboxRow>, ack: int)
    requires UniqueSeqs(rows)
    ensures UniqueSeqs(PruneRows(rows, ack))
  {
    if |rows| > 0 {
      var front := rows[..|rows| - 1];
      PruneUniqueSeqs(front, ack);
      PruneKeeps(front, ack);
    }
  }

  lemma {:induction false} TakeKeepsSeqs(s: System, st: Step)
    requires Inv(s) && UniqueSeqs(s.store.rows) && CanTake(s, st)
    ensures UniqueSeqs(Take(s, st).store.rows)
  {
    hide Process, Execute, PendingBatch, ComputeAckSeq, Advance, PruneRows, RecordedUpTo, NothingLost, ServerAgrees, Sound, PhaseSound;
    if st.PruneAcked? {
      PruneUniqueSeqs(s.store.rows, s.phase.ack);
    }
  }

  lemma {:induction false} SeqsStayUnique(s: System, steps: seq<Step>)
    requires CanRun(s, steps) && Inv(s) && UniqueSeqs(s.store.rows)
    ensures UniqueSeqs(After(s, steps).store.rows)
    decreases |steps|
  {
    hide CanTake, Take, Inv, UniqueSeqs;
    if |steps| > 0 {
      TakeKeepsInv(s, steps[0]);
      TakeKeepsSeqs(s, steps[0]);
      SeqsStayUnique(Take(s, steps[0]), steps[1..]);
    }
  }

  lemma {:induction false} SeqsGiveIds(s: System)
    requires Inv(s) && UniqueSeqs(s.store.rows)
    ensures UniqueIds(s.store.rows)
  {
    hide RecordedUpTo, NothingLost, ServerAgrees, Sound, PhaseSound;
    assert forall i :: 0 <= i < |s.store.rows| ==> Ours(s, s.store.rows[i].evt);
  }

  /** In every run the outbox holds each event and each number at most once. */
  lemma {:induction false} RowsStayUnique(pc: nat, server: Server, steps: seq<Step>)
    requires forall id :: id in server.offline ==> server.offline[id].pc != pc
    requires CanRun(Init(pc, server), steps)
    ensures var rows := After(Init(pc, server), steps).store.rows;
            UniqueIds(rows) && UniqueSeqs(rows)
  {
    InitIsTidy(pc, server);
    hide CanRun, After, Inv;
    InvHolds(Init(pc, server), steps);
    SeqsStayUnique(Init(pc, server), steps);
    SeqsGiveIds(After(Init(pc, server), steps));
  }

  // ---- Exactly which events still reach the server ------------------------------

  /** Some run brings the event to the server. */
  ghost predicate CanReach(s: System, e: SyncEvent) {
    exists steps :: CanRun(s, steps) && e.id in After(s, steps).server.offline
  }

  /** The events are recorded, and no reply under way calls one of them conflicted. */
  ghost predicate Settled(s: System, es: set<SyncEvent>) {
    && (forall b :: b in es ==> b.id in s.server.offline)
    && (forall sv :: sv in s.serving ==> Spares(sv.done, es))
    && (s.phase.Marking? ==> Spares(s.phase.results, es))
  }

  lemma {:induction false} OlderArePending(o: Store, e: SyncEvent)
    ensures forall b :: b in OlderPending(o, e) ==> IsPending(o, b)
  {
    var p := PendingEvents(o.rows);
    forall b | b in OlderPending(o, e)
      ensures IsPending(o, b)
    {
      var k :| 0 <= k < |p| && p[k] == b;
      var i := PendingIsFromRow(o.rows, k);
    }
  }

  lemma {:induction false} SparesFewer(rs: seq<SyncResult>, more: set<SyncEvent>, block: set<SyncEvent>)
    requires Spares(rs, more) && block <= more
    ensures Spares(rs, block)
  {
  }

  lemma {:induction false} OlderIsAbove(s: System, e: SyncEvent, b: SyncEvent)
    requires PendingAhead(s.store) && Stuck(s) && b in OlderPending(s.store, e)
    ensures b.seqNo > s.store.cursor + 1 && IsPending(s.store, b) && b.seqNo < e.seqNo
  {
    OlderArePending(s.store, e);
    var i :| 0 <= i < |s.store.rows| && s.store.rows[i] == OutboxRow(b, Pending);
    assert s.store.rows[i] in s.store.rows;
  }

  lemma {:induction false} SettledFewer(s: System, older: set<SyncEvent>, block: set<SyncEvent>)
    requires Settled(s, older) && block <= older
    ensures Settled(s, block)
  {
    hide Spares;
    forall sv | sv in s.serving
      ensures Spares(sv.done, block)
    {
      SparesFewer(sv.done, older, block);
    }
    if s.phase.Marking? {
      SparesFewer(s.phase.results, older, block);
    }
  }

  lemma {:induction false} ChooseBlock(older: set<SyncEvent>) returns (block: set<SyncEvent>)
    requires |older| >= BATCH_SIZE
    ensures |block| == BATCH_SIZE && block <= older
  {
    var list := ListOf(older, BATCH_SIZE);
    ElementsOfDistinct(list);
    block := Elements(list);
  }

  lemma {:induction false} SettledIsBlocked(s: System, q: nat, block: set<SyncEvent>)
    requires Barred(s, q) && |block| == BATCH_SIZE && Settled(s, block)
    requires forall b :: b in block ==> b.seqNo > q && IsPending(s.store, b)
    ensures Blocked(s, q, block)
  {
    hide Barred, IsPending, Spares;
  }

  /** A full batch of older settled events blocks a stuck agent. */
  lemma {:induction false} OlderBlock(s: System, e: SyncEvent) returns (block: set<SyncEvent>)
    requires Inv(s) && Tidy(s) && Stuck(s) && !Moving(s) && s.store.cursor >= 0
    requires Settled(s, OlderPending(s.store, e)) && |OlderPending(s.store, e)| >= BATCH_SIZE
    ensures Blocked(s, s.store.cursor + 1, block) && forall b :: b in block ==> b.seqNo < e.seqNo
  {
    hide Inv, Tidy, Hole, Wedged, OlderPending, IsPending, Stuck, Moving, PendingAhead, Blocked, Settled;
    StuckIsHoleOrWedge(s);
    TidyIsAhead(s);
    block := ChooseBlock(OlderPending(s.store, e));
    SettledFewer(s, OlderPending(s.store, e), block);
    forall b | b in block
      ensures b.seqNo > s.store.cursor + 1 && IsPending(s.store, b) && b.seqNo < e.seqNo
    {
      OlderIsAbove(s, e, b);
    }
    SettledIsBlocked(s, s.store.cursor + 1, block);
  }

  lemma {:induction false} BatchIsKnown(s: Server, events: seq<SyncEvent>, ctx: Context, times: seq<int>, e: SyncEvent)
    requires |times| == |events| && e in events
    ensures Known(ProcessAll(s, events, ctx, times).server.offline, ctx.pc, e)
  {
    hide Process, Known;
    var n := |events| - 1;
    var p := ProcessAll(s, events[..n], ctx, times[..n]);
    assert events == events[..n] + [events[n]];
    if e == events[n] {
      ProcessRecords(p.server, e, ctx, times[n]);
    } else {
      BatchIsKnown(s, events[..n], ctx, times[..n], e);
      KnownStays(p.server, e, ctx.pc, events[n], ctx, times[n]);
    }
  }

  lemma {:induction false} ReceivedKnows(o: Store, s: Server, ctx: Context, times: seq<int>, e: SyncEvent)
    requires |times| == BATCH_SIZE && e in PendingBatch(o, BATCH_SIZE)
    ensures Known(Received(o, s, ctx, times).offline, ctx.pc, e)
  {
    hide PendingBatch, ProcessAll, Known, ComputeAckSeq;
    var batch := PendingBatch(o, BATCH_SIZE);
    SortCorrect(batch, EventSeq);
    SortMembers(batch, EventSeq);
    BatchIsKnown(s, Sort(batch, EventSeq), ctx, times[..|batch|], e);
  }

  lemma {:induction false} OursStays(s: System, steps: seq<Step>, e: SyncEvent)
    requires CanRun(s, steps) && Inv(s) && Ours(s, e)
    ensures Ours(After(s, steps), e)
    decreases |steps|
  {
    hide CanTake, Take, Inv, Ours;
    if |steps| > 0 {
      TakeKeepsInv(s, steps[0]);
      OursStaysOnce(s, steps[0], e);
      OursStays(Take(s, steps[0]), steps[1..], e);
    }
  }

  lemma {:induction false} OursStaysOnce(s: System, st: Step, e: SyncEvent)
    requires CanTake(s, st) && Inv(s) && Ours(s, e)
    ensures Ours(Take(s, st), e)
  {
    hide Process, Execute, PendingBatch, ComputeAckSeq, Advance, PruneRows, MarkRows, RecordedUpTo, NothingLost, ServerAgrees, Sound, PhaseSound;
  }

  /** One undisturbed round brings a batch to the server. */
  lemma {:induction false} SentReaches(s: System, e: SyncEvent)
    requires Inv(s) && s.phase.Idle? && Ours(s, e) && e in PendingBatch(s.store, BATCH_SIZE)
    ensures CanReach(s, e)
  {
    hide CanRun, After, Inv, Ours, PendingBatch, Known;
    var ctx, times := Context(0, s.pc, None, []), Pricing.Repeat(0, BATCH_SIZE);
    QuietRoundIsUpload(s, ctx, times);
    var steps := RoundSteps(s, ctx, times);
    var t := After(s, steps);
    ReceivedKnows(s.store, s.server, ctx, times, e);
    InvHolds(s, steps);
    OursStays(s, steps, e);
    PcStays(s, steps);
    KnownIsById(t, e);
    assert e.id in After(s, steps).server.offline;
  }

  lemma {:induction false} PcStays(s: System, steps: seq<Step>)
    requires CanRun(s, steps)
    ensures After(s, steps).pc == s.pc
    decreases |steps|
  {
    hide CanTake;
    if |steps| > 0 {
      PcStaysOnce(s, steps[0]);
      hide Take;
      PcStays(Take(s, steps[0]), steps[1..]);
    }
  }

  lemma {:induction false} PcStaysOnce(s: System, st: Step)
    requires CanTake(s, st)
    ensures Take(s, st).pc == s.pc
  {
    hide Process, Execute, PendingBatch, ComputeAckSeq, Advance, PruneRows, MarkRows;
  }

  lemma {:induction false} PendingIsOurs(s: System, e: SyncEvent)
    requires Inv(s) && IsPending(s.store, e)
    ensures Ours(s, e)
  {
    hide Sound, NothingLost, ServerAgrees, RecordedUpTo, PhaseSound;
  }

  lemma {:induction false} FewOlderReaches(s: System, e: SyncEvent)
    requires Inv(s) && UniqueSeqs(s.store.rows) && IsPending(s.store, e) && |OlderPending(s.store, e)| < BATCH_SIZE
    ensures CanReach(s, e)
  {
    PendingIsOurs(s, e);
    SeqsGiveIds(s);
    hide CanRun, After, Inv, OlderPending, UniqueIds, UniqueSeqs, PendingBatch, Ours, IsPending;
    StopKeepsInv(s, Crash);
    SentExactly(s.store, BATCH_SIZE, e);
    CrashKeepsStore(s, e);
    var t := Take(s, Crash);
    hide Take, CanTake;
    SentReaches(t, e);
    var steps :| CanRun(t, steps) && e.id in After(t, steps).server.offline;
    RunNext(s, Crash, steps);
  }

  lemma {:induction false} CrashKeepsStore(s: System, e: SyncEvent)
    ensures CanTake(s, Crash)
    ensures var t := Take(s, Crash); t.store == s.store && t.phase.Idle? && (Ours(s, e) ==> Ours(t, e))
  {
  }

  lemma {:induction false} ManyOlderStarve(s: System, e: SyncEvent, steps: seq<Step>)
    requires Inv(s) && Tidy(s) && Stuck(s) && !Moving(s) && s.store.cursor >= 0
    requires IsPending(s.store, e) && e.id !in s.server.offline && forall sv :: sv in s.serving ==> e !in sv.req.events
    requires Settled(s, OlderPending(s.store, e)) && |OlderPending(s.store, e)| >= BATCH_SIZE
    requires CanRun(s, steps)
    ensures e.id !in After(s, steps).server.offline
  {
    PendingIsOurs(s, e);
    hide CanRun, After, Inv, Tidy, Stuck, Moving, Settled, OlderPending, Blocked, Ours;
    var block := OlderBlock(s, e);
    YoungerStarves(s, steps, s.store.cursor + 1, block, e);
  }

  /** A new pending event of an agent whose cursor has stopped, with all older pending events settled,
      can still reach the server if and only if fewer than 500 are pending before it. */
  lemma {:induction false} ReachesExactly(s: System, e: SyncEvent)
    requires Inv(s) && Tidy(s) && UniqueSeqs(s.store.rows) && Stuck(s) && !Moving(s) && s.store.cursor >= 0
    requires IsPending(s.store, e) && e.id !in s.server.offline && forall sv :: sv in s.serving ==> e !in sv.req.events
    requires Settled(s, OlderPending(s.store, e))
    ensures CanReach(s, e) <==> |OlderPending(s.store, e)| < 500
  {
    hide CanRun, After, Inv, Tidy, Stuck, Moving, Settled, OlderPending, UniqueSeqs, IsPending;
    if |OlderPending(s.store, e)| < BATCH_SIZE {
      FewOlderReaches(s, e);
    } else if steps :| CanRun(s, steps) && e.id in After(s, steps).server.offline {
      ManyOlderStarve(s, e, steps);
    }
  }

  /** The same after any run of a new agent. */
  lemma {:induction false} ReachesExactlyAfter(pc: nat, server: Server, steps: seq<Step>, e: SyncEvent)
    requires forall id :: id in server.offline ==> server.offline[id].pc != pc
    requires CanRun(Init(pc, server), steps)
    requires var s := After(Init(pc, server), steps);
             && Stuck(s) && !Moving(s)
             && IsPending(s.store, e) && e.id !in s.server.offline && (forall sv :: sv in s.serving ==> e !in sv.req.events)
             && Settled(s, OlderPending(s.store, e))
    ensures var s := After(Init(pc, server), steps);
            CanReach(s, e) <==> |OlderPending(s.store, e)| < 500
  {
    InitIsTidy(pc, server);
    hide CanRun, After, Inv, Tidy, Stuck, Moving, Settled, OlderPending, CanReach, IsPending;
    InvHolds(Init(pc, server), steps);
    TidyHolds(Init(pc, server), steps);
    RowsStayUnique(pc, server, steps);
    ReachesExactly(After(Init(pc, server), steps), e);
  }

  // ---- A run that starves ------------------------------------------------------

  /** Event number q of a burst of tamper alarms; its id is beyond all ids that the server knows. */
  function Alarm(base: nat, q: nat): SyncEvent {
    SyncEvent(base + q, q, TamperSuspected, 0, Payload(None, Missing, Missing))
  }

  function Alarms(base: nat, n: nat): (es: seq<SyncEvent>)
    ensures |es| == n && forall i :: 0 <= i < n ==> es[i] == Alarm(base, i + 2)
  {
    seq(n, i requires 0 <= i < n => Alarm(base, i + 2))
  }

  function AlarmRows(base: nat, n: nat): (rows: seq<OutboxRow>)
    ensures |rows| == n && forall i :: 0 <= i < n ==> rows[i] == OutboxRow(Alarm(base, i + 2), Pending)
  {
    seq(n, i requires 0 <= i < n => OutboxRow(Alarm(base, i + 2), Pending))
  }

  /** Number 1 was lost in a crash, and n alarms were enqueued after it. */
  ghost predicate Burst(s: System, pc: nat, server: Server, base: nat, n: nat) {
    && s.pc == pc && s.server == server && s.store == Store(n + 1, 0, AlarmRows(base, n))
    && s.phase.Idle? && s.serving == {} && s.handedOut == {}
    && (forall q :: q in s.inserted <==> 2 <= q <= n + 1)
    && (forall q :: q in s.inserted ==> s.inserted[q] == Alarm(base, q))
  }

  lemma {:induction false} BurstBegins(pc: nat, server: Server, base: nat)
    ensures var steps := [Allocate] + ([Crash] + []);
            CanRun(Init(pc, server), steps) && Burst(After(Init(pc, server), steps), pc, server, base, 0)
  {
    hide CanRun, After;
    var s0 := Init(pc, server);
    var s1 := Take(s0, Allocate);
    var s2 := Take(s1, Crash);
    RunNothing(s2);
    RunNext(s1, Crash, []);
    RunNext(s0, Allocate, [Crash] + []);
  }

  lemma {:induction false} BurstGrows(s: System, pc: nat, server: Server, base: nat, n: nat)
    requires Burst(s, pc, server, base, n) && forall id :: id in server.offline ==> id < base
    ensures var e := Alarm(base, n + 2);
            CanTake(Take(s, Allocate), Insert(e)) && Burst(Take(Take(s, Allocate), Insert(e)), pc, server, base, n + 1)
  {
    var e := Alarm(base, n + 2);
    var s1 := Take(s, Allocate);
    var s2 := Take(s1, Insert(e));
    assert s2.store.rows == AlarmRows(base, n + 1);
    assert s2.handedOut == {};
  }

  lemma {:induction false} BurstRuns(pc: nat, server: Server, base: nat, n: nat) returns (steps: seq<Step>)
    requires forall id :: id in server.offline ==> id < base
    ensures CanRun(Init(pc, server), steps) && Burst(After(Init(pc, server), steps), pc, server, base, n)
  {
    hide CanRun, After, Burst, Take, CanTake;
    if n == 0 {
      steps := [Allocate] + ([Crash] + []);
      BurstBegins(pc, server, base);
    } else {
      var front := BurstRuns(pc, server, base, n - 1);
      var s := After(Init(pc, server), front);
      var e := Alarm(base, n + 1);
      BurstGrows(s, pc, server, base, n - 1);
      AllocateIsPossible(s);
      var s2 := Take(Take(s, Allocate), Insert(e));
      RunNothing(s2);
      RunNext(Take(s, Allocate), Insert(e), []);
      RunNext(s, Allocate, [Insert(e)] + []);
      RunConcat(Init(pc, server), front, [Allocate] + ([Insert(e)] + []));
      steps := front + ([Allocate] + ([Insert(e)] + []));
    }
  }

  lemma {:induction false} AllocateIsPossible(s: System)
    ensures CanTake(s, Allocate)
  {
  }

  lemma {:induction false} PendingAlarms(base: nat, n: nat)
    ensures PendingEvents(AlarmRows(base, n)) == Alarms(base, n)
  {
    if n > 0 {
      PendingAlarms(base, n - 1);
      assert AlarmRows(base, n)[..n - 1] == AlarmRows(base, n - 1);
      assert Alarms(base, n) == Alarms(base, n - 1) + [Alarm(base, n + 1)];
    }
  }

  lemma {:induction false} AlarmsAreSent(base: nat, counter: nat)
    ensures PendingBatch(Store(counter, 0, AlarmRows(base, BATCH_SIZE)), BATCH_SIZE) == Alarms(base, BATCH_SIZE)
  {
    hide PendingEvents;
    PendingAlarms(base, BATCH_SIZE);
    SortOfSorted(Alarms(base, BATCH_SIZE), EventSeq);
  }

  /** The first n alarms have been served, and everything answered so far was a duplicate. */
  ghost predicate Served(s: System, t: System, req: Request, n: nat) {
    && t.pc == s.pc && t.store == s.store && t.phase == s.phase && t.inserted == s.inserted && t.handedOut == s.handedOut
    && n <= |req.events|
    && (exists sv :: sv in t.serving && sv.req == req && |sv.done| == n)
    && (forall sv :: sv in t.serving ==> sv.req == req && forall r :: r in sv.done ==> r.state.Duplicate?)
    && (forall i :: 0 <= i < n ==> req.events[i].id in t.server.offline)
    && (forall id :: id in t.server.offline ==> id in s.server.offline || exists i :: 0 <= i < n && req.events[i].id == id)
  }

  lemma {:induction false} AlarmIsDuplicate(s: Server, e: SyncEvent, ctx: Context, now: int)
    requires !e.etype.IsSession()
    ensures Process(s, e, ctx, now).result.state.Duplicate?
    ensures e.id in Process(s, e, ctx, now).server.offline || Known(s.offline, ctx.pc, e)
  {
    hide Pricing.Price;
  }

  lemma {:induction false} ServeNextAlarm(s: System, t: System, req: Request, n: nat, ctx: Context) returns (st: Step)
    requires Served(s, t, req, n) && n < |req.events| && Inv(t) && ctx.pc == s.pc && !req.events[n].etype.IsSession()
    ensures CanTake(t, st) && Served(s, Take(t, st), req, n + 1)
  {
    hide NothingLost, PhaseSound, RecordedUpTo, SeqsNameEvents, RowsAreOurs;
    var sv :| sv in t.serving && sv.req == req && |sv.done| == n;
    var e := req.events[n];
    st := Serve(sv, ctx, 0);
    assert Sound(t, sv) && Ours(t, e);
    AlarmIsDuplicate(t.server, e, ctx, 0);
    ProcessRecords(t.server, e, ctx, 0);
    if Known(t.server.offline, ctx.pc, e) {
      KnownIsById(t, e);
    }
    hide Process;
    var r := Process(t.server, e, ctx, 0).result;
    assert sv.(done := sv.done + [r]) in Take(t, st).serving;
  }

  /** An own event is known by its id. */
  lemma {:induction false} KnownIsById(s: System, e: SyncEvent)
    requires Inv(s) && Ours(s, e) && Known(s.server.offline, s.pc, e)
    ensures e.id in s.server.offline
  {
  }

  lemma {:induction false} AlarmsAreServed(s: System, req: Request, n: nat, ctx: Context) returns (steps: seq<Step>)
    requires Inv(s) && Served(s, s, req, 0) && n <= |req.events| && ctx.pc == s.pc
    requires forall i :: 0 <= i < |req.events| ==> !req.events[i].etype.IsSession()
    ensures CanRun(s, steps) && Served(s, After(s, steps), req, n)
  {
    hide CanRun, After, Take, CanTake, Inv, Served;
    if n == 0 {
      RunNothing(s);
      steps := [];
    } else {
      var front := AlarmsAreServed(s, req, n - 1, ctx);
      var t := After(s, front);
      InvHolds(s, front);
      var st := ServeNextAlarm(s, t, req, n - 1, ctx);
      RunOne(t, st);
      RunConcat(s, front, [st]);
      steps := front + [st];
    }
  }

  lemma {:induction false} BurstIsSent(s: System, pc: nat, server: Server, base: nat)
    requires Burst(s, pc, server, base, BATCH_SIZE)
    ensures CanTake(s, Send)
    ensures var t, req := Take(s, Send), Request(0, Alarms(base, BATCH_SIZE));
            && Served(t, t, req, 0) && t.pc == pc && t.server == server && t.store == s.store && t.inserted == s.inserted
            && t.handedOut == {} && t.phase == Awaiting(req)
  {
    hide PendingBatch;
    AlarmsAreSent(base, BATCH_SIZE + 1);
    var t, req := Take(s, Send), Request(0, Alarms(base, BATCH_SIZE));
    assert Serving(req, []) in t.serving;
  }

  /** The alarms are distinct, and older than the next one. */
  lemma {:induction false} AlarmsAreBlock(base: nat, n: nat)
    ensures |Elements(Alarms(base, n))| == n
    ensures forall b :: b in Elements(Alarms(base, n)) ==> 1 < b.seqNo < n + 2
  {
    var es := Alarms(base, n);
    assert AllDistinct(es);
    ElementsOfDistinct(es);
    hide Elements, Alarms;
    forall b | b in Elements(es)
      ensures 1 < b.seqNo < n + 2
    {
      var i :| 0 <= i < |es| && es[i] == b;
    }
  }

  lemma {:induction false} ServedArePending(s: System, t: System, base: nat, b: SyncEvent)
    requires Served(s, t, Request(0, Alarms(base, BATCH_SIZE)), BATCH_SIZE) && b in Alarms(base, BATCH_SIZE)
    requires s.store.rows == AlarmRows(base, BATCH_SIZE)
    ensures b.id in t.server.offline && IsPending(t.store, b)
  {
    hide Alarms, AlarmRows;
    var es := Alarms(base, BATCH_SIZE);
    var i :| 0 <= i < |es| && es[i] == b;
    assert t.store.rows[i] == OutboxRow(b, Pending);
  }

  lemma {:induction false} DuplicatesSpare(rs: seq<SyncResult>, block: set<SyncEvent>)
    requires forall r :: r in rs ==> r.state.Duplicate?
    ensures Spares(rs, block)
  {
  }

  lemma {:induction false} ServedSpares(s: System, t: System, req: Request, n: nat, block: set<SyncEvent>)
    requires Served(s, t, req, n)
    ensures t.store == s.store && t.phase == s.phase && t.inserted == s.inserted && t.handedOut == s.handedOut
    ensures forall sv :: sv in t.serving ==> Spares(sv.done, block)
  {
    forall sv | sv in t.serving
      ensures Spares(sv.done, block)
    {
      DuplicatesSpare(sv.done, block);
    }
  }

  lemma {:induction false} ServedIsBlocked(s: System, t: System, base: nat)
    requires Served(s, t, Request(0, Alarms(base, BATCH_SIZE)), BATCH_SIZE)
    requires s.store == Store(BATCH_SIZE + 1, 0, AlarmRows(base, BATCH_SIZE)) && s.handedOut == {} && s.phase.Awaiting?
    requires forall q :: q in s.inserted ==> 2 <= q
    ensures Blocked(t, 1, Elements(Alarms(base, BATCH_SIZE)))
  {
    hide Served, Elements, Alarms, AlarmRows, Spares, IsPending;
    var block := Elements(Alarms(base, BATCH_SIZE));
    AlarmsAreBlock(base, BATCH_SIZE);
    forall b | b in block
      ensures b.id in t.server.offline && IsPending(t.store, b)
    {
      ServedArePending(s, t, base, b);
    }
    ServedSpares(s, t, Request(0, Alarms(base, BATCH_SIZE)), BATCH_SIZE, block);
  }

  lemma {:induction false} NextIsFresh(s: System, base: nat, n: nat)
    requires s.store.counter == n + 1
    requires forall q :: q in s.inserted ==> q <= n + 1 && s.inserted[q] == Alarm(base, q)
    requires forall id :: id in s.server.offline ==> id <= base + n + 1
    ensures CanTake(Take(s, Allocate), Insert(Alarm(base, n + 2)))
  {
  }

  lemma {:induction false} InsertedIsUnheard(s: System, e: SyncEvent, q: nat, block: set<SyncEvent>)
    requires Inv(s) && Blocked(s, q, block) && CanTake(s, Insert(e)) && forall b :: b in block ==> b.seqNo < e.seqNo
    ensures var t := Take(s, Insert(e)); Inv(t) && Blocked(t, q, block) && Unheard(t, e, block)
  {
    hide Inv, Blocked, Unheard, Take, CanTake;
    InsertKeepsInv(s, Insert(e));
    BlockedStays(s, Insert(e), q, block);
    NewEventIsUnheard(s, e, q, block);
  }

  lemma {:induction false} NextIsUnheard(s: System, base: nat)
    requires Inv(s) && Blocked(s, 1, Elements(Alarms(base, BATCH_SIZE)))
    requires s.store.counter == BATCH_SIZE + 1
    requires forall q :: q in s.inserted ==> q <= BATCH_SIZE + 1 && s.inserted[q] == Alarm(base, q)
    requires forall id :: id in s.server.offline ==> id <= base + BATCH_SIZE + 1
    ensures var e, t := Alarm(base, BATCH_SIZE + 2), Take(s, Allocate);
            && CanTake(t, Insert(e))
            && Inv(Take(t, Insert(e))) && Blocked(Take(t, Insert(e)), 1, Elements(Alarms(base, BATCH_SIZE)))
            && Unheard(Take(t, Insert(e)), e, Elements(Alarms(base, BATCH_SIZE)))
  {
    hide Inv, Blocked, Unheard, Elements, Take, CanTake, Alarms;
    var e, block := Alarm(base, BATCH_SIZE + 2), Elements(Alarms(base, BATCH_SIZE));
    AlarmsAreBlock(base, BATCH_SIZE);
    NextIsFresh(s, base, BATCH_SIZE);
    AllocateIsPossible(s);
    AllocateKeepsInv(s, Allocate);
    BlockedStays(s, Allocate, 1, block);
    InsertedIsUnheard(Take(s, Allocate), e, 1, block);
  }

  lemma {:induction false} ServedKnows(s: System, t: System, base: nat)
    requires Served(s, t, Request(0, Alarms(base, BATCH_SIZE)), BATCH_SIZE)
    requires forall id :: id in s.server.offline ==> id < base
    ensures forall id :: id in t.server.offline ==> id <= base + BATCH_SIZE + 1
  {
  }

  /** Starvation is real. On any server, a new agent that crashes once between NextSeq and INSERT and
      then enqueues and uploads 500 alarms has starved every later event: the next one stays in the
      outbox, and no run brings it to the server. */
  lemma {:induction false} StarvationIsReached(pc: nat, server: Server) returns (steps: seq<Step>, e: SyncEvent)
    requires forall id :: id in server.offline ==> server.offline[id].pc != pc
    ensures CanRun(Init(pc, server), steps)
    ensures var s := After(Init(pc, server), steps);
            && Kept(s, e) && e.id !in s.server.offline
            && forall more :: CanRun(s, more) ==> Kept(After(s, more), e) && e.id !in After(s, more).server.offline
  {
    hide CanRun, After, Take, CanTake, Inv, Burst, Served, Blocked, Unheard, Kept, Elements;
    var base := BoundExists(server.offline.Keys);
    InitIsTidy(pc, server);
    var s0 := Init(pc, server);
    var burst := BurstRuns(pc, server, base, BATCH_SIZE);
    var s1 := After(s0, burst);
    InvHolds(s0, burst);
    var sent, block := StarveAfterBurst(s1, pc, server, base);
    var s2 := After(s1, sent);
    e := Alarm(base, BATCH_SIZE + 2);
    RunConcat(s0, burst, sent);
    steps := burst + sent;
    UnheardIsKept(s2, e, block);
    forall more | CanRun(s2, more)
      ensures Kept(After(s2, more), e) && e.id !in After(s2, more).server.offline
    {
      YoungerStarves(s2, more, 1, block, e);
    }
  }

  lemma {:induction false} StarveAfterBurst(s: System, pc: nat, server: Server, base: nat)
    returns (steps: seq<Step>, block: set<SyncEvent>)
    requires Inv(s) && Burst(s, pc, server, base, BATCH_SIZE) && forall id :: id in server.offline ==> id < base
    ensures CanRun(s, steps)
    ensures Inv(After(s, steps)) && Blocked(After(s, steps), 1, block)
    ensures Unheard(After(s, steps), Alarm(base, BATCH_SIZE + 2), block)
  {
    BurstIsSent(s, pc, server, base);
    SendKeepsInv(s, Send);
    BurstFacts(s, pc, server, base);
    hide CanRun, After, Take, CanTake, Inv, Burst, Blocked, Unheard, Elements;
    var s1, req, e := Take(s, Send), Request(0, Alarms(base, BATCH_SIZE)), Alarm(base, BATCH_SIZE + 2);
    var serves := AlarmsAreServed(s1, req, BATCH_SIZE, Context(0, pc, None, []));
    var s2 := After(s1, serves);
    InvHolds(s1, serves);
    ServedIsBlocked(s1, s2, base);
    ServedKnows(s1, s2, base);
    block := Elements(Alarms(base, BATCH_SIZE));
    NextIsUnheard(s2, base);
    AllocateIsPossible(s2);
    var s3 := Take(s2, Allocate);
    var s4 := Take(s3, Insert(e));
    RunNothing(s4);
    RunNext(s3, Insert(e), []);
    var last := [Allocate] + ([Insert(e)] + []);
    RunNext(s2, Allocate, [Insert(e)] + []);
    RunConcat(s1, serves, last);
    RunNext(s, Send, serves + last);
    steps := [Send] + (serves + last);
  }

  lemma {:induction false} BurstFacts(s: System, pc: nat, server: Server, base: nat)
    requires Burst(s, pc, server, base, BATCH_SIZE)
    ensures s.pc == pc && s.server == server && s.store == Store(BATCH_SIZE + 1, 0, AlarmRows(base, BATCH_SIZE))
    ensures s.handedOut == {} && forall q :: q in s.inserted ==> 2 <= q <= BATCH_SIZE + 1 && s.inserted[q] == Alarm(base, q)
  {
  }
}
