/** The contiguous ack cursor, computed once by the server and once more by the agent. */
module AckCursor {
  import opened Domain
  import opened Sorting

  predicate IsTerminal(v: Verdict) {
    v.Accepted? || v.Duplicate? || v.Conflicted?
  }

  // ---- Server: ack-seq.ts ------------------------------------------------------

  function ServerReduce(ack: int, rs: seq<SyncResult>): int
    decreases |rs|
  {
    if |rs| == 0 then ack
    else
      var r := rs[0];
      var next := if r.seqNo != ack + 1 then ack
                  else if r.state.Accepted? || r.state.Duplicate? || r.state.Conflicted? then r.seqNo
                  else ack;
      ServerReduce(next, rs[1..])
  }

  function ComputeAckSeq(lastServerSeq: int, results: seq<SyncResult>): int {
    ServerReduce(lastServerSeq, Sort(results, ResultSeq))
  }

  // ---- Agent: SyncAck.cs -------------------------------------------------------

  function ClientReduce(cursor: int, rs: seq<SyncResult>): int
    decreases |rs|
  {
    if |rs| == 0 then cursor
    else ClientReduce(if rs[0].seqNo == cursor + 1 && IsTerminal(rs[0].state) then rs[0].seqNo else cursor, rs[1..])
  }

  function Advance(lastServerSeq: int, results: seq<SyncResult>): int {
    ClientReduce(lastServerSeq, Sort(results, ResultSeq))
  }

  // ---- What the cursor means ---------------------------------------------------

  predicate HasTerminal(q: int, rs: seq<SyncResult>) {
    exists r :: r in rs && r.seqNo == q && IsTerminal(r.state)
  }

  /** Every seq in (last, n] has a terminal result. */
  ghost predicate Covered(last: int, n: int, rs: seq<SyncResult>) {
    last <= n && forall q :: last < q <= n ==> HasTerminal(q, rs)
  }

  function NextAck(ack: int, r: SyncResult): int {
    if r.seqNo == ack + 1 && IsTerminal(r.state) then ack + 1 else ack
  }

  lemma {:induction false} ReduceCovers(last: int, rs: seq<SyncResult>)
    ensures Covered(last, ServerReduce(last, rs), rs)
    decreases |rs|
  {
    if |rs| > 0 {
      var next := NextAck(last, rs[0]);
      var g := ServerReduce(next, rs[1..]);
      ReduceCovers(next, rs[1..]);
      forall q | last < q <= g
        ensures HasTerminal(q, rs)
      {
        if q > next {
          assert HasTerminal(q, rs[1..]);
        } else {
          assert rs[0] in rs;
        }
      }
    }
  }

  lemma {:induction false} TerminalsOfTail(q: int, rs: seq<SyncResult>)
    requires |rs| > 0
    ensures HasTerminal(q, rs) <==> (rs[0].seqNo == q && IsTerminal(rs[0].state)) || HasTerminal(q, rs[1..])
  {
    assert rs == [rs[0]] + rs[1..];
  }

  lemma {:induction false} FirstIsLowest(q: int, rs: seq<SyncResult>)
    requires Sorted(rs, ResultSeq) && |rs| > 0 && HasTerminal(q, rs[1..])
    ensures rs[0].seqNo <= q
  {
    var k :| 0 <= k < |rs| - 1 && rs[1..][k].seqNo == q;
    assert ResultSeq(rs[0]) <= ResultSeq(rs[k + 1]);
  }

  lemma {:induction false} ReduceStops(last: int, rs: seq<SyncResult>)
    requires Sorted(rs, ResultSeq)
    ensures !HasTerminal(ServerReduce(last, rs) + 1, rs)
    decreases |rs|
  {
    if |rs| > 0 {
      var next := NextAck(last, rs[0]);
      var g := ServerReduce(next, rs[1..]);
      ReduceStops(next, rs[1..]);
      ReduceCovers(next, rs[1..]);
      hide HasTerminal;
      if g > next {
        FirstIsLowest(g, rs);
      }
      TerminalsOfTail(g + 1, rs);
    }
  }

  lemma {:induction false} SortKeepsTerminals(q: int, results: seq<SyncResult>)
    ensures HasTerminal(q, Sort(results, ResultSeq)) <==> HasTerminal(q, results)
  {
    SortMembers(results, ResultSeq);
  }

  lemma {:induction false} AckStops(last: int, results: seq<SyncResult>)
    ensures !HasTerminal(ComputeAckSeq(last, results) + 1, results)
  {
    SortCorrect(results, ResultSeq);
    ReduceStops(last, Sort(results, ResultSeq));
    SortKeepsTerminals(ComputeAckSeq(last, results) + 1, results);
  }

  /** The ack is the greatest n such that every seq in (last, n] has a terminal result,
      in whatever order and however often the results come. */
  lemma {:induction false} AckIsGreatest(last: int, results: seq<SyncResult>)
    ensures Covered(last, ComputeAckSeq(last, results), results)
    ensures forall n :: Covered(last, n, results) ==> n <= ComputeAckSeq(last, results)
  {
    var sorted := Sort(results, ResultSeq);
    var g := ComputeAckSeq(last, results);
    ReduceCovers(last, sorted);
    forall q | last < q <= g
      ensures HasTerminal(q, results)
    {
      assert HasTerminal(q, sorted);
      SortKeepsTerminals(q, results);
    }
    AckStops(last, results);
  }

  lemma {:induction false} AckUnique(last: int, results: seq<SyncResult>, g: int)
    requires Covered(last, g, results) && !HasTerminal(g + 1, results)
    ensures ComputeAckSeq(last, results) == g
  {
    AckIsGreatest(last, results);
  }

  /** A seq whose results are all unknown words is not acked, whatever follows it. */
  lemma {:induction false} UnknownVerdictStops(last: int, results: seq<SyncResult>, q: int)
    requires q > last && forall r :: r in results && r.seqNo == q ==> r.state.Unrecognized?
    ensures ComputeAckSeq(last, results) < q
  {
    AckIsGreatest(last, results);
    assert !HasTerminal(q, results);
  }

  /** More results never lower the ack; equal sets of results give equal acks. */
  lemma {:induction false} AckMonotone(last: int, some: seq<SyncResult>, more: seq<SyncResult>)
    requires forall r :: r in some ==> r in more
    ensures ComputeAckSeq(last, some) <= ComputeAckSeq(last, more)
  {
    AckIsGreatest(last, some);
    AckIsGreatest(last, more);
    var g := ComputeAckSeq(last, some);
    forall q | last < q <= g
      ensures HasTerminal(q, more)
    {
      assert HasTerminal(q, some);
    }
    assert Covered(last, g, more);
  }

  /** Acking two seq-ordered batches one after the other is acking them together. */
  lemma {:induction false} AckComposes(last: int, xs: seq<SyncResult>, ys: seq<SyncResult>)
    requires forall x, y :: x in xs && y in ys ==> x.seqNo <= y.seqNo
    ensures ComputeAckSeq(ComputeAckSeq(last, xs), ys) == ComputeAckSeq(last, xs + ys)
  {
    var a := ComputeAckSeq(last, xs);
    var b := ComputeAckSeq(a, ys);
    AckIsGreatest(last, xs);
    AckIsGreatest(a, ys);
    forall q | last < q <= b
      ensures HasTerminal(q, xs + ys)
    {
      assert if q <= a then HasTerminal(q, xs) else HasTerminal(q, ys);
    }
    assert Covered(a, b + 1, ys) <==> HasTerminal(b + 1, ys);
    assert Covered(last, a + 1, xs) <==> HasTerminal(a + 1, xs);
    assert b > a ==> HasTerminal(b, ys);
    AckUnique(last, xs + ys, b);
  }

  lemma {:induction false} ReducesAgree(last: int, rs: seq<SyncResult>)
    ensures ClientReduce(last, rs) == ServerReduce(last, rs)
    decreases |rs|
  {
    if |rs| > 0 {
      ReducesAgree(NextAck(last, rs[0]), rs[1..]);
    }
  }

  /** The agent's own cursor rule gives the server's ack, so their maximum is the ack. */
  lemma {:induction false} AgentAgreesWithServer(last: int, results: seq<SyncResult>)
    ensures Advance(last, results) == ComputeAckSeq(last, results)
  {
    ReducesAgree(last, Sort(results, ResultSeq));
  }
}
