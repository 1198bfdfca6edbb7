/** The agent's durable outbox: table `outbox` and the two counters in table `meta`. */
module Outbox {
  import opened Domain
  import opened Sorting

  datatype RowState = Pending | Held

  datatype OutboxRow = OutboxRow(evt: SyncEvent, state: RowState)

  /** `counter` is meta.outbox_seq and `cursor` is meta.last_server_seq. */
  datatype Store = Store(counter: nat, cursor: int, rows: seq<OutboxRow>)

  // ---- Single statements -------------------------------------------------------

  function InsertRow(o: Store, evt: SyncEvent): Store {
    o.(rows := o.rows + [OutboxRow(evt, Pending)])
  }

  function MarkRow(row: OutboxRow, r: SyncResult): OutboxRow {
    if r.state.Conflicted? && row.evt.id == r.id then row.(state := Held) else row
  }

  function MarkRows(rows: seq<OutboxRow>, r: SyncResult): (marked: seq<OutboxRow>)
    ensures |marked| == |rows|
    ensures forall i :: 0 <= i < |rows| ==> marked[i] == MarkRow(rows[i], r)
  {
    seq(|rows|, i requires 0 <= i < |rows| => MarkRow(rows[i], r))
  }

  /** One UPDATE for each conflicted result. */
  function MarkAll(rows: seq<OutboxRow>, rs: seq<SyncResult>): (marked: seq<OutboxRow>)
    ensures |marked| == |rows|
    ensures forall i :: 0 <= i < |rows| ==> marked[i].evt == rows[i].evt
  {
    if |rs| == 0 then rows else MarkRows(MarkAll(rows, rs[..|rs| - 1]), rs[|rs| - 1])
  }

  /** DELETE of the pending rows at or below the cursor. */
  function PruneRows(rows: seq<OutboxRow>, ack: int): seq<OutboxRow> {
    if |rows| == 0 then []
    else
      var row := rows[|rows| - 1];
      PruneRows(rows[..|rows| - 1], ack) + if row.state.Pending? && row.evt.seqNo <= ack then [] else [row]
  }

  function Prune(o: Store, ack: int): Store {
    o.(rows := PruneRows(o.rows, ack))
  }

  function AdvanceCursor(o: Store, ack: int): Store {
    if ack > o.cursor then o.(cursor := ack) else o
  }

  function ApplyBatch(o: Store, rs: seq<SyncResult>, ack: int): Store {
    AdvanceCursor(Prune(o.(rows := MarkAll(o.rows, rs)), ack), ack)
  }

  // ---- Queries -----------------------------------------------------------------

  function PendingEvents(rows: seq<OutboxRow>): seq<SyncEvent> {
    if |rows| == 0 then []
    else
      var row := rows[|rows| - 1];
      PendingEvents(rows[..|rows| - 1]) + if row.state.Pending? then [row.evt] else []
  }

  function PendingBatch(o: Store, limit: nat): (batch: seq<SyncEvent>)
    ensures |batch| <= limit
  {
    var sorted := Sort(PendingEvents(o.rows), EventSeq);
    if |sorted| <= limit then sorted else sorted[..limit]
  }

  // ---- What marking and pruning do ---------------------------------------------

  predicate ConflictedIn(rs: seq<SyncResult>, id: nat) {
    exists r :: r in rs && r.state.Conflicted? && r.id == id
  }

  lemma {:induction false} MarkAllMarks(rows: seq<OutboxRow>, rs: seq<SyncResult>, i: nat)
    requires i < |rows|
    ensures MarkAll(rows, rs)[i] == if ConflictedIn(rs, rows[i].evt.id) then rows[i].(state := Held) else rows[i]
  {
    if |rs| > 0 {
      var front, last := rs[..|rs| - 1], rs[|rs| - 1];
      MarkAllMarks(rows, front, i);
      assert rs == front + [last];
      assert ConflictedIn(rs, rows[i].evt.id) <==>
             ConflictedIn(front, rows[i].evt.id) || (last.state.Conflicted? && last.id == rows[i].evt.id);
    }
  }

  lemma {:induction false} PruneKeeps(rows: seq<OutboxRow>, ack: int)
    ensures forall row :: row in PruneRows(rows, ack) <==> row in rows && !(row.state.Pending? && row.evt.seqNo <= ack)
  {
    if |rows| > 0 {
      PruneKeeps(rows[..|rows| - 1], ack);
      assert rows == rows[..|rows| - 1] + [rows[|rows| - 1]];
    }
  }

  ghost predicate HasEvent(rows: seq<OutboxRow>, evt: SyncEvent) {
    exists row :: row in rows && row.evt == evt
  }

  /** The agent keeps an event after a reply exactly if the reply calls it conflicted, an
      earlier one did, or the cursor has not reached it. The cursor moves up to the ack and never back,
      and no number is handed out or taken back. */
  lemma {:induction false} ApplyBatchKeeps(o: Store, rs: seq<SyncResult>, ack: int, evt: SyncEvent)
    ensures ApplyBatch(o, rs, ack).cursor == (if o.cursor < ack then ack else o.cursor) && ApplyBatch(o, rs, ack).counter == o.counter
    ensures HasEvent(ApplyBatch(o, rs, ack).rows, evt) <==>
            exists i :: 0 <= i < |o.rows| && o.rows[i].evt == evt
                        && (o.rows[i].state.Held? || ConflictedIn(rs, evt.id) || evt.seqNo > ack)
  {
    var marked := MarkAll(o.rows, rs);
    PruneKeeps(marked, ack);
    forall i | 0 <= i < |o.rows|
      ensures marked[i] == if ConflictedIn(rs, o.rows[i].evt.id) then o.rows[i].(state := Held) else o.rows[i]
    {
      MarkAllMarks(o.rows, rs, i);
    }
    if HasEvent(PruneRows(marked, ack), evt) {
      var row :| row in PruneRows(marked, ack) && row.evt == evt;
      var i :| 0 <= i < |marked| && marked[i] == row;
      assert o.rows[i].evt == evt;
    }
    if i :| 0 <= i < |o.rows| && o.rows[i].evt == evt
            && (o.rows[i].state.Held? || ConflictedIn(rs, evt.id) || evt.seqNo > ack) {
      assert marked[i] in PruneRows(marked, ack);
    }
  }

  // ---- The dense outbox --------------------------------------------------------

  /** While enqueuing and applying are not interrupted, the pending events are numbered
      cursor + 1 to counter without a gap, in insertion order. */
  ghost predicate Dense(o: Store) {
    var p := PendingEvents(o.rows);
    && 0 <= o.cursor && o.cursor + |p| == o.counter
    && forall i :: 0 <= i < |p| ==> p[i].seqNo == o.cursor + 1 + i
  }

  ghost predicate UniqueIds(rows: seq<OutboxRow>) {
    forall i, j :: 0 <= i < j < |rows| ==> rows[i].evt.id != rows[j].evt.id
  }

  lemma {:induction false} DenseBatch(o: Store, limit: nat)
    requires Dense(o)
    ensures var p := PendingEvents(o.rows);
            PendingBatch(o, limit) == p[..if |p| <= limit then |p| else limit]
  {
    SortOfSorted(PendingEvents(o.rows), EventSeq);
  }

  /** Enqueuing appends one pending event with the next number. */
  lemma {:induction false} EnqueueKeepsDense(o: Store, evt: SyncEvent)
    requires Dense(o) && UniqueIds(o.rows)
    requires evt.seqNo == o.counter + 1 && forall row :: row in o.rows ==> row.evt.id != evt.id
    ensures var n := InsertRow(o.(counter := o.counter + 1), evt);
            && Dense(n) && UniqueIds(n.rows) && PendingEvents(n.rows) == PendingEvents(o.rows) + [evt]
  {
    assert (o.rows + [OutboxRow(evt, Pending)])[..|o.rows|] == o.rows;
  }

  /** The pending events that neither a conflicted result nor the cursor takes away. */
  function Remaining(p: seq<SyncEvent>, rs: seq<SyncResult>, ack: int): seq<SyncEvent> {
    if |p| == 0 then []
    else
      var e := p[|p| - 1];
      Remaining(p[..|p| - 1], rs, ack) + if ConflictedIn(rs, e.id) || e.seqNo <= ack then [] else [e]
  }

  lemma {:induction false} MarkAllPrefix(rows: seq<OutboxRow>, rs: seq<SyncResult>, n: nat)
    requires n <= |rows|
    ensures MarkAll(rows, rs)[..n] == MarkAll(rows[..n], rs)
  {
    if |rs| > 0 {
      MarkAllPrefix(rows, rs[..|rs| - 1], n);
    }
  }

  lemma {:induction false} PruneAppend(rows: seq<OutboxRow>, row: OutboxRow, ack: int)
    ensures PruneRows(rows + [row], ack)
         == PruneRows(rows, ack) + if row.state.Pending? && row.evt.seqNo <= ack then [] else [row]
  {
    assert (rows + [row])[..|rows|] == rows;
  }

  lemma {:induction false} PendingAppend(rows: seq<OutboxRow>, row: OutboxRow)
    ensures PendingEvents(rows + [row]) == PendingEvents(rows) + if row.state.Pending? then [row.evt] else []
  {
    assert (rows + [row])[..|rows|] == rows;
  }

  lemma {:induction false} RemainingAppend(p: seq<SyncEvent>, e: SyncEvent, rs: seq<SyncResult>, ack: int)
    ensures Remaining(p + [e], rs, ack)
         == Remaining(p, rs, ack) + if ConflictedIn(rs, e.id) || e.seqNo <= ack then [] else [e]
  {
    assert (p + [e])[..|p|] == p;
  }

  /** What marking and pruning leave of one row, seen as pending events. */
  lemma {:induction false} PendingAfterRow(kept: seq<OutboxRow>, row: OutboxRow, conflicted: bool, ack: int)
    ensures var marked := if conflicted then row.(state := Held) else row;
            && PendingEvents(kept + if marked.state.Pending? && row.evt.seqNo <= ack then [] else [marked])
               == PendingEvents(kept) + if row.state.Pending? && !conflicted && row.evt.seqNo > ack then [row.evt] else []
  {
    var marked := if conflicted then row.(state := Held) else row;
    PendingAppend(kept, marked);
    assert kept + [] == kept;
    assert PendingEvents(kept) + [] == PendingEvents(kept);
  }

  lemma {:induction false} RemainingAfterRow(p: seq<SyncEvent>, row: OutboxRow, rs: seq<SyncResult>, ack: int)
    ensures Remaining(p + if row.state.Pending? then [row.evt] else [], rs, ack)
         == Remaining(p, rs, ack) + if row.state.Pending? && !ConflictedIn(rs, row.evt.id) && row.evt.seqNo > ack then [row.evt] else []
  {
    hide ConflictedIn;
    RemainingAppend(p, row.evt, rs, ack);
    assert p + [] == p;
    assert Remaining(p, rs, ack) + [] == Remaining(p, rs, ack);
  }

  lemma {:induction false} PendingAfterBatch(rows: seq<OutboxRow>, rs: seq<SyncResult>, ack: int)
    ensures PendingEvents(PruneRows(MarkAll(rows, rs), ack)) == Remaining(PendingEvents(rows), rs, ack)
  {
    hide MarkAll, ConflictedIn;
    if |rows| > 0 {
      var n := |rows| - 1;
      var front, row := rows[..n], rows[n];
      PendingAfterBatch(front, rs, ack);
      PendingAfterLast(front, row, rs, ack);
      assert rows == front + [row];
    }
  }

  lemma {:induction false} PendingAfterLast(front: seq<OutboxRow>, row: OutboxRow, rs: seq<SyncResult>, ack: int)
    requires PendingEvents(PruneRows(MarkAll(front, rs), ack)) == Remaining(PendingEvents(front), rs, ack)
    ensures PendingEvents(PruneRows(MarkAll(front + [row], rs), ack)) == Remaining(PendingEvents(front + [row]), rs, ack)
  {
    hide MarkAll, ConflictedIn, PruneRows, PendingEvents, Remaining;
    var rows := front + [row];
    assert rows[..|front|] == front;
    MarkAllPrefix(rows, rs, |front|);
    MarkAllMarks(rows, rs, |front|);
    var conflicted := ConflictedIn(rs, row.evt.id);
    var marked := if conflicted then row.(state := Held) else row;
    assert MarkAll(rows, rs) == MarkAll(front, rs) + [marked];
    PruneAppend(MarkAll(front, rs), marked, ack);
    PendingAfterRow(PruneRows(MarkAll(front, rs), ack), row, conflicted, ack);
    PendingAppend(front, row);
    RemainingAfterRow(PendingEvents(front), row, rs, ack);
  }

  /** If the results conflict only events up to the cursor, what remains is the rest. */
  lemma {:induction false} RemainingIsSuffix(p: seq<SyncEvent>, rs: seq<SyncResult>, first: int, n: nat)
    requires n <= |p|
    requires forall i :: 0 <= i < |p| ==> p[i].seqNo == first + i
    requires forall i :: n <= i < |p| ==> !ConflictedIn(rs, p[i].id)
    ensures Remaining(p, rs, first + n - 1) == p[n..]
    decreases |p|
  {
    if |p| > 0 {
      var last := |p| - 1;
      if n == |p| {
        RemainingNone(p, rs, first + n - 1);
      } else {
        RemainingIsSuffix(p[..last], rs, first, n);
        assert p[n..] == p[..last][n..] + [p[last]];
      }
    }
  }

  lemma {:induction false} RemainingNone(p: seq<SyncEvent>, rs: seq<SyncResult>, ack: int)
    requires forall i :: 0 <= i < |p| ==> p[i].seqNo <= ack
    ensures Remaining(p, rs, ack) == []
  {
    if |p| > 0 {
      RemainingNone(p[..|p| - 1], rs, ack);
    }
  }

  lemma {:induction false} PendingIsFromRow(rows: seq<OutboxRow>, k: nat) returns (i: nat)
    requires k < |PendingEvents(rows)|
    ensures i < |rows| && rows[i] == OutboxRow(PendingEvents(rows)[k], Pending)
  {
    var n := |rows| - 1;
    if k < |PendingEvents(rows[..n])| {
      i := PendingIsFromRow(rows[..n], k);
    } else {
      i := n;
    }
  }

  lemma {:induction false} PruneUnique(rows: seq<OutboxRow>, ack: int)
    requires UniqueIds(rows)
    ensures UniqueIds(PruneRows(rows, ack))
  {
    if |rows| > 0 {
      var front := rows[..|rows| - 1];
      PruneUnique(front, ack);
      PruneKeeps(front, ack);
    }
  }

  /** Results about the first n pending events say nothing about the others. */
  lemma {:induction false} OthersNotConflicted(o: Store, rs: seq<SyncResult>, n: nat)
    requires Dense(o) && UniqueIds(o.rows) && n <= |PendingEvents(o.rows)|
    requires forall r :: r in rs ==> exists k :: 0 <= k < n && PendingEvents(o.rows)[k].id == r.id
    ensures forall i :: n <= i < |PendingEvents(o.rows)| ==> !ConflictedIn(rs, PendingEvents(o.rows)[i].id)
  {
    hide UniqueIds, PendingEvents;
    var p := PendingEvents(o.rows);
    forall i, k | 0 <= k < n <= i < |p|
      ensures p[k].id != p[i].id
    {
      PendingIdsDiffer(o.rows, o.cursor + 1, k, i);
    }
  }

  lemma {:induction false} MarkAllUnique(rows: seq<OutboxRow>, rs: seq<SyncResult>)
    requires UniqueIds(rows)
    ensures UniqueIds(MarkAll(rows, rs))
  {
    hide MarkRows;
  }

  /** A batch of n pending events, all answered and acked, leaves exactly the pending events
      after it: the outbox stays dense and shrinks by n. */
  lemma {:induction false} AnsweredBatchDrains(o: Store, rs: seq<SyncResult>, n: nat)
    requires Dense(o) && UniqueIds(o.rows) && n <= |PendingEvents(o.rows)|
    requires forall r :: r in rs ==> exists k :: 0 <= k < n && PendingEvents(o.rows)[k].id == r.id
    ensures var t := ApplyBatch(o, rs, o.cursor + n);
            && Dense(t) && UniqueIds(t.rows) && t.counter == o.counter && t.cursor == o.cursor + n
            && PendingEvents(t.rows) == PendingEvents(o.rows)[n..]
  {
    hide MarkAll, UniqueIds, PendingEvents, PruneRows, Remaining, ConflictedIn;
    var p := PendingEvents(o.rows);
    OthersNotConflicted(o, rs, n);
    PendingAfterBatch(o.rows, rs, o.cursor + n);
    RemainingIsSuffix(p, rs, o.cursor + 1, n);
    MarkAllUnique(o.rows, rs);
    PruneUnique(MarkAll(o.rows, rs), o.cursor + n);
  }

  lemma {:induction false} PendingIdsDiffer(rows: seq<OutboxRow>, first: int, k: nat, i: nat)
    requires UniqueIds(rows) && k < i < |PendingEvents(rows)|
    requires forall j :: 0 <= j < |PendingEvents(rows)| ==> PendingEvents(rows)[j].seqNo == first + j
    ensures PendingEvents(rows)[k].id != PendingEvents(rows)[i].id
  {
    var a := PendingIsFromRow(rows, k);
    var b := PendingIsFromRow(rows, i);
    assert a != b;
  }

  // ---- The outbox as it is executed --------------------------------------------

  class OutboxService {
    var counter: nat
    var cursor: int
    var rows: seq<OutboxRow>

    constructor ()
      ensures View() == Store(0, 0, [])
    {
      counter, cursor, rows := 0, 0, [];
    }

    function View(): Store
      reads this
    {
      Store(counter, cursor, rows)
    }

    method NextSeq() returns (seqNo: nat)
      modifies this
      ensures View() == old(View()).(counter := old(counter) + 1) && seqNo == counter
    {
      var current := counter;
      current := current + 1;
      counter := current;
      seqNo := current;
    }

    /** `id` is the fresh event id. */
    method Enqueue(id: nat, etype: EventType, occurredAt: int, payload: Payload) returns (evt: SyncEvent)
      modifies this
      ensures evt == SyncEvent(id, old(counter) + 1, etype, occurredAt, payload)
      ensures View() == InsertRow(old(View()).(counter := old(counter) + 1), evt)
    {
      var seqNo := NextSeq();
      evt := SyncEvent(id, seqNo, etype, occurredAt, payload);
      rows := rows + [OutboxRow(evt, Pending)];
    }

    method PendingUpTo(limit: nat) returns (batch: seq<SyncEvent>)
      ensures batch == PendingBatch(View(), limit)
    {
      var sorted := Sort(PendingEvents(rows), EventSeq);
      batch := if |sorted| <= limit then sorted else sorted[..limit];
    }

    method PendingCount() returns (n: nat)
      ensures n == |PendingEvents(rows)|
    {
      n := |PendingEvents(rows)|;
    }

    method Apply(results: seq<SyncResult>, ackSeq: int)
      modifies this
      ensures View() == ApplyBatch(old(View()), results, ackSeq)
    {
      hide PruneRows;
      for k := 0 to |results|
        invariant View() == old(View()).(rows := MarkAll(old(rows), results[..k]))
      {
        if results[k].state.Conflicted? {
          rows := MarkRows(rows, results[k]);
        }
        MarkAllStep(old(rows), results, k);
      }
      assert results[..|results|] == results;
      rows := PruneRows(rows, ackSeq);
      if ackSeq > cursor {
        cursor := ackSeq;
      }
    }
  }

  lemma {:induction false} MarkAllNothing(rows: seq<OutboxRow>, rs: seq<SyncResult>)
    ensures MarkAll(rows, rs[..0]) == rows
  {
  }

  lemma {:induction false} MarkAllStep(rows: seq<OutboxRow>, rs: seq<SyncResult>, k: nat)
    requires k < |rs|
    ensures MarkAll(rows, rs[..k + 1]) == MarkRows(MarkAll(rows, rs[..k]), rs[k])
    ensures !rs[k].state.Conflicted? ==> MarkAll(rows, rs[..k + 1]) == MarkAll(rows, rs[..k])
  {
    assert rs[..k + 1][..k] == rs[..k];
  }
}
