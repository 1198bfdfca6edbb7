/** The agent's uploader (class `SyncEngine`): batches of 500, at most four per pass, a contiguous cursor, and
    exponential backoff after a failed pass. The server is called directly; what the network
    does to each call is a parameter. */
module SyncUpload {
  import opened Domain
  import opened Sorting
  import opened AckCursor
  import opened SyncServer
  import opened Outbox

  const BATCH_SIZE: nat := 500
  const MAX_BATCHES_PER_PASS: nat := 4

  /** The fate of one call: answered, lost on the way, or its answer lost on the way back. */
  datatype Link = Answered | RequestLost | ReplyLost

  function MaxOf(a: int, b: int): int { if a > b then a else b }

  /** The cursor that the agent derives from a reply. */
  function ReplyCursor(last: int, reply: Reply): int {
    MaxOf(reply.ack, Advance(last, reply.results))
  }

  lemma {:induction false} ReplyCursorIsAck(s: Server, events: seq<SyncEvent>, last: int, ctx: Context, times: seq<int>)
    requires |times| == |events|
    ensures var reply := Handle(s, events, last, ctx, times);
            ReplyCursor(last, reply) == reply.ack
  {
    AgentAgreesWithServer(last, Handle(s, events, last, ctx, times).results);
  }

  /** Terminal answers to events last + 1, last + 2, … are acked to their end. */
  lemma {:induction false} ConsecutiveAnswersAreAcked(rs: seq<SyncResult>, events: seq<SyncEvent>, last: int)
    requires Answers(rs, events)
    requires forall i :: 0 <= i < |events| ==> events[i].seqNo == last + 1 + i
    ensures ComputeAckSeq(last, rs) == last + |events| == MaxOf(ComputeAckSeq(last, rs), Advance(last, rs))
  {
    forall q | last < q <= last + |events|
      ensures HasTerminal(q, rs)
    {
      assert rs[q - last - 1] in rs;
    }
    TerminalMeansPresent(last + |events| + 1, rs, events);
    AckUnique(last, rs, last + |events|);
    AgentAgreesWithServer(last, rs);
  }

  /** A batch numbered last + 1, last + 2, … is acked to its end. */
  lemma {:induction false} ConsecutiveBatchIsAcked(s: Server, events: seq<SyncEvent>, last: int, ctx: Context, times: seq<int>)
    requires |times| == |events|
    requires forall i :: 0 <= i < |events| ==> events[i].seqNo == last + 1 + i
    ensures var reply := Handle(s, events, last, ctx, times);
            reply.ack == last + |events| && Answers(reply.results, events)
  {
    hide Process;
    SortCorrect(events, EventSeq);
    SortOfSorted(events, EventSeq);
    ResultsFollowEvents(s, events, ctx, times);
    ConsecutiveAnswersAreAcked(Handle(s, events, last, ctx, times).results, events, last);
  }

  /** The store after an answered upload of its next batch. */
  function Uploaded(o: Store, s: Server, ctx: Context, times: seq<int>): Store
    requires |times| == BATCH_SIZE
  {
    var batch := PendingBatch(o, BATCH_SIZE);
    var reply := Handle(s, batch, o.cursor, ctx, times[..|batch|]);
    ApplyBatch(o, reply.results, ReplyCursor(o.cursor, reply))
  }

  lemma {:induction false} AnswersNameEvents(rs: seq<SyncResult>, p: seq<SyncEvent>, n: nat)
    requires n <= |p| && Answers(rs, p[..n])
    ensures forall r :: r in rs ==> exists k :: 0 <= k < n && p[k].id == r.id
  {
    forall r | r in rs
      ensures exists k :: 0 <= k < n && p[k].id == r.id
    {
      var k :| 0 <= k < |rs| && rs[k] == r;
      assert p[k].id == r.id;
    }
  }

  /** One answered upload of a dense outbox takes exactly its first min(500, pending) events. */
  lemma {:induction false} UploadDrains(o: Store, s: Server, ctx: Context, times: seq<int>)
    requires |times| == BATCH_SIZE
    requires Dense(o) && UniqueIds(o.rows)
    ensures var n := if |PendingEvents(o.rows)| < 500 then |PendingEvents(o.rows)| else 500;
            var t := Uploaded(o, s, ctx, times);
            && Dense(t) && UniqueIds(t.rows) && t.counter == o.counter && t.cursor == o.cursor + n
            && PendingEvents(t.rows) == PendingEvents(o.rows)[n..]
  {
    hide Process, ApplyBatch, Handle, PendingBatch, PendingEvents, ReplyCursor;
    var p := PendingEvents(o.rows);
    var n := if |p| < BATCH_SIZE then |p| else BATCH_SIZE;
    DenseBatch(o, BATCH_SIZE);
    var batch := p[..n];
    assert PendingBatch(o, BATCH_SIZE) == batch;
    var reply := Handle(s, batch, o.cursor, ctx, times[..n]);
    ConsecutiveBatchIsAcked(s, batch, o.cursor, ctx, times[..n]);
    ReplyCursorIsAck(s, batch, o.cursor, ctx, times[..n]);
    AnswersNameEvents(reply.results, p, n);
    AnsweredBatchDrains(o, reply.results, n);
  }

  // ---- When the cursor moves ---------------------------------------------------

  /** The reply's cursor moves exactly if the batch holds the event after the last one. */
  lemma {:induction false} ReplyMovesExactly(s: Server, events: seq<SyncEvent>, last: int, ctx: Context, times: seq<int>)
    requires |times| == |events|
    ensures var cursor := ReplyCursor(last, Handle(s, events, last, ctx, times));
            last <= cursor && (cursor > last <==> HoldsSeq(events, last + 1))
  {
    hide ProcessAll, ComputeAckSeq, Advance;
    SortCorrect(events, EventSeq);
    SortMembers(events, EventSeq);
    var sorted := Sort(events, EventSeq);
    var rs := ProcessAll(s, sorted, ctx, times).results;
    ResultsFollowEvents(s, sorted, ctx, times);
    ReplyCursorIsAck(s, events, last, ctx, times);
    AckIsGreatest(last, rs);
    TerminalMeansPresent(last + 1, rs, sorted);
    assert HoldsSeq(sorted, last + 1) <==> HoldsSeq(events, last + 1);
    assert Covered(last, last + 1, rs) <==> HasTerminal(last + 1, rs);
  }

  /** Whatever state the outbox is in, gaps included, an answered upload moves the cursor exactly
      if the event after the cursor is in the batch. */
  lemma {:induction false} UploadMovesExactly(o: Store, s: Server, ctx: Context, times: seq<int>)
    requires |times| == BATCH_SIZE
    ensures var t := Uploaded(o, s, ctx, times);
            o.cursor <= t.cursor && (t.cursor > o.cursor <==> HoldsSeq(PendingBatch(o, BATCH_SIZE), o.cursor + 1))
  {
    hide Handle, ReplyCursor, PendingBatch;
    var batch := PendingBatch(o, BATCH_SIZE);
    ReplyMovesExactly(s, batch, o.cursor, ctx, times[..|batch|]);
  }

  /** The event after the cursor is in the batch as soon as it is pending and no older event is. */
  lemma {:induction false} NextIsInBatch(o: Store, limit: nat)
    requires limit > 0 && forall e :: e in PendingEvents(o.rows) ==> e.seqNo > o.cursor
    ensures HoldsSeq(PendingBatch(o, limit), o.cursor + 1) <==> HoldsSeq(PendingEvents(o.rows), o.cursor + 1)
  {
    hide PendingEvents, Sort;
    var p := PendingEvents(o.rows);
    SortCorrect(p, EventSeq);
    SortMembers(p, EventSeq);
    var sorted := Sort(p, EventSeq);
    if e :| e in p && e.seqNo == o.cursor + 1 {
      var i :| 0 <= i < |sorted| && sorted[i] == e;
      assert sorted[0] in sorted && sorted[0].seqNo > o.cursor;
      assert i > 0 ==> EventSeq(sorted[0]) <= EventSeq(sorted[i]);
      assert PendingBatch(o, limit)[0] == sorted[0];
    }
  }

  // ---- When the agent keeps a conflicted event ----------------------------------

  /** An event that the server holds conflicted stays with the agent after a reply that covers
      it exactly if the server did not know the event before. */
  lemma {:induction false} ConflictKeptExactly(s: Server, o: Store, evt: SyncEvent, ctx: Context, now: int)
    requires UniqueIds(o.rows) && OutboxRow(evt, Pending) in o.rows
    requires var t := Process(s, evt, ctx, now).server;
             evt.id in t.offline && t.offline[evt.id].state.Conflicted?
    ensures HasEvent(ApplyBatch(o, [Process(s, evt, ctx, now).result], evt.seqNo).rows, evt) <==> !Known(s.offline, ctx.pc, evt)
  {
    hide Process, Known, ApplyBatch;
    var r := Process(s, evt, ctx, now).result;
    NewVerdict(s, evt, ctx, now);
    ProcessAnswers(s, evt, ctx, now);
    assert [r][0] == r && [evt][0] == evt;
    ApplyBatchKeeps(o, [r], evt.seqNo, evt);
    var i :| 0 <= i < |o.rows| && o.rows[i] == OutboxRow(evt, Pending);
    assert ConflictedIn([r], evt.id) <==> r.state.Conflicted?;
  }

  predicate UniqueSeqs(rows: seq<OutboxRow>) {
    forall i, j :: 0 <= i < j < |rows| ==> rows[i].evt.seqNo != rows[j].evt.seqNo
  }

  lemma {:induction false} PendingEventsDiffer(rows: seq<OutboxRow>)
    requires UniqueIds(rows)
    ensures AllDistinct(PendingEvents(rows))
    ensures forall e :: e in PendingEvents(rows) ==> exists i :: 0 <= i < |rows| && rows[i] == OutboxRow(e, Pending)
  {
    if |rows| > 0 {
      PendingEventsDiffer(rows[..|rows| - 1]);
    }
  }

  lemma {:induction false} DistinctEventsFromRows(rows: seq<OutboxRow>, xs: seq<SyncEvent>)
    requires UniqueIds(rows) && UniqueSeqs(rows) && AllDistinct(xs)
    requires forall e :: e in xs ==> exists i :: 0 <= i < |rows| && rows[i] == OutboxRow(e, Pending)
    ensures DistinctEvents(xs)
  {
    forall a, b | 0 <= a < b < |xs|
      ensures xs[a].id != xs[b].id && xs[a].seqNo != xs[b].seqNo
    {
      var i :| 0 <= i < |rows| && rows[i] == OutboxRow(xs[a], Pending);
      var j :| 0 <= j < |rows| && rows[j] == OutboxRow(xs[b], Pending);
      assert i != j;
    }
  }

  lemma {:induction false} BatchIsDistinct(o: Store, limit: nat)
    requires UniqueIds(o.rows) && UniqueSeqs(o.rows)
    ensures DistinctEvents(PendingBatch(o, limit)) && Sorted(PendingBatch(o, limit), EventSeq)
  {
    hide UniqueIds, UniqueSeqs, PendingEvents;
    var p := PendingEvents(o.rows);
    PendingEventsDiffer(o.rows);
    SortCorrect(p, EventSeq);
    SortDistinct(p, EventSeq);
    SortMembers(p, EventSeq);
    DistinctEventsFromRows(o.rows, Sort(p, EventSeq));
  }

  /** In the reply to a batch, exactly the events that are new to the server can be conflicted. */
  lemma {:induction false} ConflictedInReply(s: Server, events: seq<SyncEvent>, ctx: Context, times: seq<int>, j: nat)
    requires |times| == |events| && DistinctEvents(events) && j < |events|
    requires var t := ProcessAll(s, events, ctx, times).server;
             events[j].id in t.offline && t.offline[events[j].id].state.Conflicted?
    ensures ConflictedIn(ProcessAll(s, events, ctx, times).results, events[j].id) <==> !Known(s.offline, ctx.pc, events[j])
  {
    hide ProcessAll, Known;
    var rs := ProcessAll(s, events, ctx, times).results;
    BatchVerdict(s, events, ctx, times, j);
    ResultsFollowEvents(s, events, ctx, times);
    assert rs[j] in rs;
    if r :| r in rs && r.state.Conflicted? && r.id == events[j].id {
      var i :| 0 <= i < |rs| && rs[i] == r;
      assert i == j;
    }
  }

  /** The same for a whole upload: an event of the batch that the server then holds conflicted
      stays exactly if the server did not know it before, or the cursor does not reach it. */
  lemma {:induction false} UploadKeepsConflicts(o: Store, s: Server, ctx: Context, times: seq<int>, evt: SyncEvent)
    requires |times| == BATCH_SIZE && UniqueIds(o.rows) && UniqueSeqs(o.rows)
    requires OutboxRow(evt, Pending) in o.rows && evt in PendingBatch(o, BATCH_SIZE)
    ensures var t := Received(o, s, ctx, times);
            evt.id in t.offline && t.offline[evt.id].state.Conflicted? ==>
              (HasEvent(Uploaded(o, s, ctx, times).rows, evt) <==>
                 !Known(s.offline, ctx.pc, evt) || evt.seqNo > Uploaded(o, s, ctx, times).cursor)
  {
    hide PendingBatch, ProcessAll, Known, UniqueIds, UniqueSeqs, ComputeAckSeq, Advance, DistinctEvents, PruneRows, MarkAll;
    BatchIsDistinct(o, BATCH_SIZE);
    var events := PendingBatch(o, BATCH_SIZE);
    var n := |events|;
    SortOfSorted(events, EventSeq);
    var reply := Handle(s, events, o.cursor, ctx, times[..n]);
    ReplyMovesExactly(s, events, o.cursor, ctx, times[..n]);
    var ack := ReplyCursor(o.cursor, reply);
    var j :| 0 <= j < n && events[j] == evt;
    ApplyBatchKeeps(o, reply.results, ack, evt);
    OnlyPendingRow(o.rows, evt);
    if evt.id in reply.server.offline && reply.server.offline[evt.id].state.Conflicted? {
      ConflictedInReply(s, events, ctx, times[..n], j);
    }
  }

  lemma {:induction false} OnlyPendingRow(rows: seq<OutboxRow>, evt: SyncEvent)
    requires UniqueIds(rows) && OutboxRow(evt, Pending) in rows
    ensures forall i :: 0 <= i < |rows| && rows[i].evt == evt ==> rows[i].state.Pending?
    ensures exists i :: 0 <= i < |rows| && rows[i].evt == evt
  {
    var k :| 0 <= k < |rows| && rows[k] == OutboxRow(evt, Pending);
  }

  // ---- The uploader as it is executed ------------------------------------------

  /** The server's tables after the next batch has reached it. */
  function Received(o: Store, s: Server, ctx: Context, times: seq<int>): Server
    requires |times| == BATCH_SIZE
  {
    var batch := PendingBatch(o, BATCH_SIZE);
    Handle(s, batch, o.cursor, ctx, times[..|batch|]).server
  }

  /** Seconds to hold off after the given number of consecutive failures, in milliseconds. */
  function BackoffMs(failures: nat): int {
    var capped := if failures < 6 then failures else 6;
    var delay := 5 * Power2(capped);
    1000 * if delay < 300 then delay else 300
  }

  function Power2(n: nat): nat {
    if n == 0 then 1 else 2 * Power2(n - 1)
  }

  lemma {:induction false} Power2Monotone(a: nat, b: nat)
    requires a <= b
    ensures 1 <= Power2(a) <= Power2(b)
    decreases b
  {
    if a < b {
      Power2Monotone(a, b - 1);
    } else if b > 0 {
      Power2Monotone(a - 1, b - 1);
    }
  }

  /** The hold never shrinks while failures pile up, and stays between 10 s and 5 minutes. */
  lemma {:induction false} BackoffBounds(failures: nat, more: nat)
    requires 1 <= failures <= more
    ensures 10_000 <= BackoffMs(failures) <= BackoffMs(more) <= 300_000
  {
    var a, b := if failures < 6 then failures else 6, if more < 6 then more else 6;
    Power2Monotone(a, b);
    Power2Monotone(1, a);
    assert Power2(1) == 2 * Power2(0);
  }

  /** The first failure costs 10 s, and each further one doubles the hold until it is 5 minutes. */
  lemma {:induction false} BackoffDoubles(failures: nat)
    requires failures >= 1
    ensures BackoffMs(1) == 10_000
    ensures BackoffMs(failures + 1) == if 2 * BackoffMs(failures) < 300_000 then 2 * BackoffMs(failures) else 300_000
  {
    assert Power2(1) == 2 * Power2(0);
    if failures < 6 {
      assert Power2(failures + 1) == 2 * Power2(failures);
    } else {
      assert Power2(6) == 2 * Power2(5) && Power2(5) == 2 * Power2(4) && Power2(4) == 2 * Power2(3);
      assert Power2(3) == 2 * Power2(2) && Power2(2) == 2 * Power2(1);
    }
  }

  /** No enqueuing and no applying was ever interrupted. */
  ghost predicate DenseOutbox(o: Store) {
    Dense(o) && UniqueIds(o.rows)
  }

  lemma {:induction false} BatchIsEmptyExactly(o: Store)
    ensures PendingBatch(o, BATCH_SIZE) == [] <==> PendingEvents(o.rows) == []
  {
    hide PendingEvents;
    SortCorrect(PendingEvents(o.rows), EventSeq);
  }

  lemma {:induction false} KeepsCounter(o: Store, rs: seq<SyncResult>, ack: int)
    ensures ApplyBatch(o, rs, ack).counter == o.counter
  {
  }

  /** What one pass leaves on both sides, and whether it went through without a failed call. */
  datatype PassResult = PassResult(store: Store, server: Server, ok: bool)

  /** A pass with one call for each link, as long as anything is pending. */
  function Pass(o: Store, s: Server, ctx: Context, links: seq<Link>, times: seq<seq<int>>): PassResult
    requires |links| == |times| && forall i :: 0 <= i < |times| ==> |times[i]| == BATCH_SIZE
    decreases |links|
  {
    if |links| == 0 || PendingEvents(o.rows) == [] then PassResult(o, s, true)
    else match links[0]
      case RequestLost => PassResult(o, s, false)
      case ReplyLost => PassResult(o, Received(o, s, ctx, times[0]), false)
      case Answered => Pass(Uploaded(o, s, ctx, times[0]), Received(o, s, ctx, times[0]), ctx, links[1..], times[1..])
  }

  /** The pass stops at call i, having sent the first i batches of 500. */
  ghost predicate StopsAt(p: seq<SyncEvent>, rest: seq<SyncEvent>, links: seq<Link>, i: nat) {
    && i < |links| && 500 * i < |p| && !links[i].Answered? && (forall j :: 0 <= j < i ==> links[j].Answered?)
    && rest == p[500 * i..]
  }

  /** Without gaps, a pass makes one call for each 500 pending events, as far as it has links. It fails
      exactly at the first of these that is not answered; what was answered before is gone from the
      outbox, and nothing else. */
  lemma {:induction false} PassSendsExactly(o: Store, s: Server, ctx: Context, links: seq<Link>, times: seq<seq<int>>)
    requires |links| == |times| && forall i :: 0 <= i < |times| ==> |times[i]| == BATCH_SIZE
    requires DenseOutbox(o)
    ensures var r, p := Pass(o, s, ctx, links, times), PendingEvents(o.rows);
            var rest := PendingEvents(r.store.rows);
            && DenseOutbox(r.store) && r.store.counter == o.counter
            && (r.ok <==> forall i :: 0 <= i < |links| && 500 * i < |p| ==> links[i].Answered?)
            && (r.ok ==> rest == p[if |p| <= 500 * |links| then |p| else 500 * |links|..])
            && (!r.ok ==> exists i: nat :: StopsAt(p, rest, links, i))
    decreases |links|
  {
    hide PendingEvents, Dense, UniqueIds, Received, Uploaded;
    var p := PendingEvents(o.rows);
    if |links| > 0 && |p| > 0 {
      if links[0].Answered? {
        UploadDrains(o, s, ctx, times[0]);
        var o1, s1 := Uploaded(o, s, ctx, times[0]), Received(o, s, ctx, times[0]);
        var p1 := PendingEvents(o1.rows);
        PassSendsExactly(o1, s1, ctx, links[1..], times[1..]);
        PassAfterFirst(p, p1, PendingEvents(Pass(o, s, ctx, links, times).store.rows), links, Pass(o, s, ctx, links, times).ok);
      } else {
        assert StopsAt(p, p, links, 0);
      }
    }
  }

  lemma {:induction false} PassAfterFirst(p: seq<SyncEvent>, p1: seq<SyncEvent>, rest: seq<SyncEvent>, links: seq<Link>, ok: bool)
    requires |links| > 0 && links[0].Answered? && p1 == p[if |p| < 500 then |p| else 500..]
    requires ok <==> forall i :: 0 <= i < |links| - 1 && 500 * i < |p1| ==> links[1..][i].Answered?
    requires ok ==> rest == p1[if |p1| <= 500 * (|links| - 1) then |p1| else 500 * (|links| - 1)..]
    requires !ok ==> exists i: nat :: StopsAt(p1, rest, links[1..], i)
    ensures ok <==> forall i :: 0 <= i < |links| && 500 * i < |p| ==> links[i].Answered?
    ensures ok ==> rest == p[if |p| <= 500 * |links| then |p| else 500 * |links|..]
    ensures !ok ==> exists i: nat :: StopsAt(p, rest, links, i)
  {
    assert forall i :: 0 < i < |links| ==> links[i] == links[1..][i - 1];
    if ok {
      forall i | 0 <= i < |links| && 500 * i < |p|
        ensures links[i].Answered?
      {
        assert i > 0 ==> links[1..][i - 1].Answered?;
      }
    } else {
      var i: nat :| StopsAt(p1, rest, links[1..], i);
      assert StopsAt(p, rest, links, i + 1);
    }
  }

  class SyncEngine {
    const outbox: OutboxService
    var failures: nat
    var holdUntil: Option<int>

    constructor (outbox: OutboxService)
      ensures this.outbox == outbox && failures == 0 && holdUntil == None
    {
      this.outbox := outbox;
      failures, holdUntil := 0, None;
    }

    /** One batch; `ok` is false when the call threw. */
    method UploadBatch(db: CafeDatabase, ctx: Context, link: Link, times: seq<int>) returns (ok: bool, remaining: nat)
      requires |times| == BATCH_SIZE
      modifies outbox, db
      ensures outbox.counter == old(outbox.counter)
      ensures old(PendingEvents(outbox.rows)) == [] ==>
                (ok && remaining == 0 && outbox.View() == old(outbox.View()) && db.View() == old(db.View()))
      ensures old(PendingEvents(outbox.rows)) != [] ==>
                && ok == link.Answered?
                && (link.Answered? ==> outbox.View() == Uploaded(old(outbox.View()), old(db.View()), ctx, times))
                && (!link.Answered? ==> outbox.View() == old(outbox.View()))
                && (link.RequestLost? ==> db.View() == old(db.View()))
                && (!link.RequestLost? ==> db.View() == Received(old(outbox.View()), old(db.View()), ctx, times))
      ensures ok ==> remaining == |PendingEvents(outbox.rows)|
      ensures old(DenseOutbox(outbox.View())) ==>
                DenseOutbox(outbox.View()) && (ok ==> remaining == Left(old(|PendingEvents(outbox.rows)|), 1))
    {
      hide Process, ApplyBatch, Dense, UniqueIds, PendingEvents;
      ghost var o := outbox.View();
      BatchIsEmptyExactly(o);
      var pending := outbox.PendingUpTo(BATCH_SIZE);
      if |pending| == 0 { return true, 0; }
      var lastSeq := outbox.cursor;
      if link.RequestLost? { return false, 0; }
      if DenseOutbox(o) {
        UploadDrains(o, db.View(), ctx, times);
      }
      var results, ackSeq := db.HandleSyncEvents(pending, lastSeq, ctx, times[..|pending|]);
      if link.ReplyLost? { return false, 0; }
      var cursor := MaxOf(ackSeq, Advance(lastSeq, results));
      outbox.Apply(results, cursor);
      KeepsCounter(o, results, cursor);
      remaining := outbox.PendingCount();
      ok := true;
    }

    /** One pass: at most four batches, stopping early when nothing is pending. */
    method Drain(db: CafeDatabase, ctx: Context, links: seq<Link>, times: seq<seq<int>>) returns (ok: bool, drained: bool)
      requires |links| == |times| == MAX_BATCHES_PER_PASS
      requires forall i :: 0 <= i < |times| ==> |times[i]| == BATCH_SIZE
      modifies outbox, db
      ensures PassResult(outbox.View(), db.View(), ok) == Pass(old(outbox.View()), old(db.View()), ctx, links, times)
      ensures outbox.counter == old(outbox.counter)
      ensures drained <==> ok && PendingEvents(outbox.rows) == []
      ensures old(DenseOutbox(outbox.View())) ==>
                && DenseOutbox(outbox.View())
                && (ok ==> (drained <==> old(|PendingEvents(outbox.rows)|) <= 2000))
    {
      hide PendingEvents, Dense, UniqueIds, PendingBatch, Uploaded, Received;
      ghost var o, s := outbox.View(), db.View();
      if DenseOutbox(o) {
        PassSendsExactly(o, s, ctx, links, times);
      }
      var left: nat := MAX_BATCHES_PER_PASS;
      assert links[0..] == links && times[0..] == times;
      while left > 0
        invariant left <= MAX_BATCHES_PER_PASS && outbox.counter == old(outbox.counter)
        invariant Pass(outbox.View(), db.View(), ctx, links[4 - left..], times[4 - left..]) == Pass(o, s, ctx, links, times)
      {
        assert links[4 - left..][1..] == links[4 - (left - 1)..] && times[4 - left..][1..] == times[4 - (left - 1)..];
        var sent, remaining := UploadBatch(db, ctx, links[4 - left], times[4 - left]);
        if !sent { return false, false; }
        left := left - 1;
        if remaining == 0 { return true, true; }
      }
      var count := outbox.PendingCount();
      return true, count == 0;
    }

    /** A scheduled attempt. `gateFree` tells whether no other pass is running. */
    method SyncOnce(now: int, gateFree: bool, connected: bool, failedAt: int, db: CafeDatabase, ctx: Context,
                    links: seq<Link>, times: seq<seq<int>>)
      returns (drained: bool)
      requires |links| == |times| == MAX_BATCHES_PER_PASS
      requires forall i :: 0 <= i < |times| ==> |times[i]| == BATCH_SIZE
      modifies this, outbox, db
      ensures outbox.counter == old(outbox.counter)
      ensures var blocked := (old(holdUntil).Some? && now < old(holdUntil).value) || !gateFree;
              var pass := if connected then Pass(old(outbox.View()), old(db.View()), ctx, links, times)
                          else PassResult(old(outbox.View()), old(db.View()), true);
              if blocked then
                && !drained && failures == old(failures) && holdUntil == old(holdUntil)
                && outbox.View() == old(outbox.View()) && db.View() == old(db.View())
              else
                && outbox.View() == pass.store && db.View() == pass.server
                && (drained <==> connected && pass.ok && PendingEvents(outbox.rows) == [])
                && (pass.ok ==> failures == 0 && holdUntil == None)
                && (!pass.ok ==> failures == old(failures) + 1 && holdUntil == Some(failedAt + BackoffMs(failures)))
      ensures old(DenseOutbox(outbox.View())) ==> DenseOutbox(outbox.View())
      ensures drained && old(DenseOutbox(outbox.View())) ==> old(|PendingEvents(outbox.rows)|) <= 2000
    {
      hide PendingEvents, Dense, UniqueIds;
      if holdUntil.Some? && now < holdUntil.value { return false; }
      if !gateFree { return false; }
      var ok := true;
      drained := false;
      if connected {
        ok, drained := Drain(db, ctx, links, times);
      }
      if ok {
        failures, holdUntil := 0, None;
      } else {
        failures := failures + 1;
        holdUntil := Some(failedAt + BackoffMs(failures));
        drained := false;
      }
    }
  }

  /** What is left of `total` pending events after `n` answered batches. */
  function Left(total: nat, n: nat): nat {
    if total <= BATCH_SIZE * n then 0 else total - BATCH_SIZE * n
  }
}
