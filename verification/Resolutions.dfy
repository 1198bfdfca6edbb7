/** What conflict resolutions and uploads together do to recorded verdicts and to the session
    table, when the statements of several resolutions interleave and some never finish. */
module Resolutions {
  import opened Domain
  import opened AckCursor
  import Pricing
  import opened SyncServer
  import opened Lifecycle
  import opened Outbox
  import opened Protocol

  // ---- Verdicts ----------------------------------------------------------------

  predicate NeverJudged(s: System, steps: seq<Step>, id: nat)
    requires CanRun(s, steps)
    decreases |steps|
  {
    |steps| > 0 ==> !WritesVerdict(s, steps[0], id) && NeverJudged(Take(s, steps[0]), steps[1..], id)
  }

  /** Over any run, a recorded row changes only if a resolution writes a verdict to it. */
  lemma {:induction false} OnlyResolutionsJudge(s: System, steps: seq<Step>, id: nat)
    requires CanRun(s, steps) && id in s.server.offline && NeverJudged(s, steps, id)
    ensures id in After(s, steps).server.offline && After(s, steps).server.offline[id] == s.server.offline[id]
    decreases |steps|
  {
    hide CanTake, Take, WritesVerdict;
    if |steps| > 0 {
      TakeGrows(s, steps[0]);
      OnlyResolutionsJudge(Take(s, steps[0]), steps[1..], id);
    }
  }

  /** Verdicts other than `conflicted` stay as they are. */
  ghost predicate VerdictsStay(a: map<nat, OfflineRow>, b: map<nat, OfflineRow>) {
    forall id :: id in a ==> id in b && (!a[id].state.Conflicted? ==> b[id] == a[id])
  }

  /** A resolution writes its verdict over another one that was given since it read the event. */
  predicate StaleVerdict(s: System, st: Step) {
    && st.Staff? && st.act.WriteVerdict? && CanTake(s, st)
    && var r := s.resolving[st.act.req];
       !s.server.offline[r.id].state.Conflicted? && Settled(s.server.offline[r.id], r.resolution) != s.server.offline[r.id]
  }

  lemma {:induction false} TakeKeepsVerdicts(s: System, st: Step)
    requires CanTake(s, st)
    ensures VerdictsStay(s.server.offline, Take(s, st).server.offline) <==> !StaleVerdict(s, st)
  {
    TakeGrows(s, st);
    hide Process, Do;
    if st.Staff? {
      StaffKeepsRows(DeskOf(s), st.act);
    }
  }

  ghost predicate VerdictsStayThroughout(s: System, steps: seq<Step>)
    requires CanRun(s, steps)
    decreases |steps|
  {
    |steps| > 0 ==>
      VerdictsStay(s.server.offline, Take(s, steps[0]).server.offline) && VerdictsStayThroughout(Take(s, steps[0]), steps[1..])
  }

  predicate NoStaleVerdict(s: System, steps: seq<Step>)
    requires CanRun(s, steps)
    decreases |steps|
  {
    |steps| > 0 ==> !StaleVerdict(s, steps[0]) && NoStaleVerdict(Take(s, steps[0]), steps[1..])
  }

  /** In a run every verdict other than `conflicted` is final if and only if no resolution writes
      its verdict over one given since it read the event. */
  lemma {:induction false} VerdictsAreFinal(s: System, steps: seq<Step>)
    requires CanRun(s, steps)
    ensures VerdictsStayThroughout(s, steps) <==> NoStaleVerdict(s, steps)
    ensures NoStaleVerdict(s, steps) ==> VerdictsStay(s.server.offline, After(s, steps).server.offline)
    decreases |steps|
  {
    hide CanTake, Take, StaleVerdict, VerdictsStay;
    if |steps| > 0 {
      TakeKeepsVerdicts(s, steps[0]);
      VerdictsAreFinal(Take(s, steps[0]), steps[1..]);
      if NoStaleVerdict(s, steps) {
        VerdictsStayOn(s.server.offline, Take(s, steps[0]).server.offline, After(s, steps).server.offline);
      }
    } else {
      VerdictsStayNow(s.server.offline);
    }
  }

  lemma {:induction false} VerdictsStayNow(a: map<nat, OfflineRow>)
    ensures VerdictsStay(a, a)
  {
  }

  lemma {:induction false} VerdictsStayOn(a: map<nat, OfflineRow>, b: map<nat, OfflineRow>, c: map<nat, OfflineRow>)
    requires VerdictsStay(a, b) && VerdictsStay(b, c)
    ensures VerdictsStay(a, c)
  {
  }

  // ---- Exactly-once effect -----------------------------------------------------

  /** Every event that changed the session table is recorded, and every resolution in flight is
      about a recorded event that it read as conflicted. */
  ghost predicate ChangesRecorded(s: System) {
    && (forall i :: 0 <= i < |s.changes| ==> s.changes[i] in s.server.offline)
    && (forall req :: req in s.resolving ==>
          s.resolving[req].id in s.server.offline && s.resolving[req].event.state.Conflicted?)
  }

  /** Each event changed the session table once. */
  predicate Once(s: System) {
    forall i, j :: 0 <= i < j < |s.changes| ==> s.changes[i] != s.changes[j]
  }

  /** A resolution writes the session for an event that changed the table before. Its own read did
      not see a verdict, as for every resolution in flight, because the one who changed the table
      had not written it yet. */
  predicate SecondWrite(s: System, st: Step) {
    && st.Staff? && st.act.WriteExtension? && CanTake(s, st)
    && var r := s.resolving[st.act.req];
       r.id in s.changes && Execute(DeskOf(s), st.act).server.sessions != s.server.sessions
  }

  /** An event changes the session table only in the transaction that first records it, and then
      it is not conflicted. */
  lemma {:induction false} ProcessChangesOnce(s: Server, evt: SyncEvent, ctx: Context, now: int)
    ensures var t := Process(s, evt, ctx, now).server;
            t.sessions != s.sessions ==>
              evt.id !in s.offline && evt.id in t.offline && !t.offline[evt.id].state.Conflicted?
  {
    hide Pricing.Price;
  }

  lemma {:induction false} OneMoreChange(s: System, t: System, id: nat)
    requires t.changes == if t.server.sessions != s.server.sessions then s.changes + [id] else s.changes
    requires Once(s)
    ensures Once(t) <==> !(t.server.sessions != s.server.sessions && id in s.changes)
  {
    if t.server.sessions != s.server.sessions && id in s.changes {
      var i :| 0 <= i < |s.changes| && s.changes[i] == id;
      assert t.changes[i] == t.changes[|s.changes|];
    }
  }

  lemma {:induction false} StaffChangesRecorded(s: System, st: Step)
    requires CanTake(s, st) && ChangesRecorded(s) && st.Staff?
    ensures ChangesRecorded(Take(s, st))
  {
    StaffKeepsRows(DeskOf(s), st.act);
    hide Do;
  }

  lemma {:induction false} TakeChangesRecorded(s: System, st: Step)
    requires CanTake(s, st) && ChangesRecorded(s)
    ensures ChangesRecorded(Take(s, st))
  {
    TakeKeepsIds(s, st);
    hide Process, Execute, ComputeAckSeq, Advance, PendingBatch, PruneRows, MarkRows;
    match st
    case Serve(sv, ctx, now) =>
      ProcessChangesOnce(s.server, sv.req.events[|sv.done|], ctx, now);
      ResultNamesEvent(s.server, sv.req.events[|sv.done|], ctx, now);
    case ServeOther(evt, ctx, now) => ProcessChangesOnce(s.server, evt, ctx, now);
    case Staff(_) => StaffChangesRecorded(s, st);
    case _ =>
  }

  lemma {:induction false} TakeChangesOnce(s: System, st: Step)
    requires CanTake(s, st) && ChangesRecorded(s) && Once(s)
    ensures Once(Take(s, st)) <==> !SecondWrite(s, st)
  {
    hide Process, Do, Once, ComputeAckSeq, Advance, PendingBatch, PruneRows, MarkRows;
    var t := Take(s, st);
    match st
    case Serve(sv, ctx, now) =>
      var evt := sv.req.events[|sv.done|];
      ProcessChangesOnce(s.server, evt, ctx, now);
      ResultNamesEvent(s.server, evt, ctx, now);
      OneMoreChange(s, t, evt.id);
    case ServeOther(evt, ctx, now) =>
      ProcessChangesOnce(s.server, evt, ctx, now);
      OneMoreChange(s, t, evt.id);
    case Staff(act) =>
      if act.WriteExtension? {
        OneMoreChange(s, t, s.resolving[act.req].id);
      } else {
        SameChanges(s, t);
      }
    case _ => SameChanges(s, t);
  }

  lemma {:induction false} SameChanges(s: System, t: System)
    requires t.changes == s.changes
    ensures Once(t) <==> Once(s)
  {
  }

  predicate OnceThroughout(s: System, steps: seq<Step>)
    requires CanRun(s, steps)
    decreases |steps|
  {
    Once(s) && (|steps| > 0 ==> OnceThroughout(Take(s, steps[0]), steps[1..]))
  }

  predicate NoSecondWrite(s: System, steps: seq<Step>)
    requires CanRun(s, steps)
    decreases |steps|
  {
    |steps| > 0 ==> !SecondWrite(s, steps[0]) && NoSecondWrite(Take(s, steps[0]), steps[1..])
  }

  /** Over any interleaving of uploads, replays, staff requests and statements of conflict
      resolutions, each event changes the session table at most once if and only if no
      resolution writes a session for an event that has changed the table already, whose
      verdict it had not seen. */
  lemma {:induction false} ExactlyOnceEffect(s: System, steps: seq<Step>)
    requires CanRun(s, steps) && ChangesRecorded(s) && Once(s)
    ensures OnceThroughout(s, steps) <==> NoSecondWrite(s, steps)
    decreases |steps|
  {
    hide CanTake, Take, ChangesRecorded, Once, SecondWrite;
    if |steps| > 0 {
      TakeChangesOnce(s, steps[0]);
      TakeChangesRecorded(s, steps[0]);
      if Once(Take(s, steps[0])) {
        ExactlyOnceEffect(Take(s, steps[0]), steps[1..]);
      }
    }
  }

  /** What staff can check before they resolve: no other resolution of the event has been begun and
      not finished. */
  predicate ReadsAlone(s: System, st: Step) {
    st.Staff? && st.act.ReadConflict? ==> forall req :: req in s.resolving ==> s.resolving[req].id != st.act.id
  }

  /** A resolution of this event has written the session, and not yet the verdict. */
  ghost predicate HalfResolved(s: System, id: nat) {
    exists req :: req in s.resolving && s.resolving[req].id == id && s.resolving[req].stage.Written?
  }

  /** At most one resolution of each event; before its write the event changed nothing; and an event
      that changed something and is still conflicted is half resolved. */
  ghost predicate OneAtATime(s: System) {
    && (forall p, q :: p in s.resolving && q in s.resolving && p != q ==> s.resolving[p].id != s.resolving[q].id)
    && (forall p :: p in s.resolving && !s.resolving[p].stage.Written? ==> s.resolving[p].id !in s.changes)
    && ChangedIsHeld(s)
  }

  ghost predicate ChangedIsHeld(s: System) {
    forall id :: id in s.changes && id in s.server.offline && s.server.offline[id].state.Conflicted? ==> HalfResolved(s, id)
  }

  lemma {:induction false} HalfResolvedStays(s: System, t: System, id: nat)
    requires HalfResolved(s, id)
    requires forall req :: req in s.resolving && s.resolving[req].id == id && s.resolving[req].stage.Written? ==>
               req in t.resolving && t.resolving[req].id == id && t.resolving[req].stage.Written?
    ensures HalfResolved(t, id)
  {
  }

  lemma {:induction false} SyncKeepsHeld(s: System, t: System, id: nat)
    requires ChangesRecorded(s) && ChangedIsHeld(s) && t.resolving == s.resolving
    requires RowsStay(s.server.offline, t.server.offline)
    requires t.changes == s.changes ||
             (t.changes == s.changes + [id] && id in t.server.offline && !t.server.offline[id].state.Conflicted?)
    ensures ChangedIsHeld(t)
  {
    forall c | c in t.changes && c in t.server.offline && t.server.offline[c].state.Conflicted?
      ensures HalfResolved(t, c)
    {
      assert c in s.changes;
      HalfResolvedStays(s, t, c);
    }
  }

  lemma {:induction false} StaffKeepsHeld(s: System, st: Step)
    requires CanTake(s, st) && st.Staff? && ChangesRecorded(s) && ChangedIsHeld(s)
    ensures ChangedIsHeld(Take(s, st))
  {
    hide Do;
    var t := Take(s, st);
    StaffKeepsRows(DeskOf(s), st.act);
    forall c | c in t.changes && c in t.server.offline && t.server.offline[c].state.Conflicted?
      ensures HalfResolved(t, c)
    {
      if c in s.changes {
        HalfResolvedStays(s, t, c);
      } else {
        assert st.act.WriteExtension? && t.resolving[st.act.req].id == c && t.resolving[st.act.req].stage.Written?;
      }
    }
  }

  /** The guard tells whether the event has changed the table. */
  lemma {:induction false} AloneIsUnchanged(s: System, st: Step)
    requires CanTake(s, st) && ChangedIsHeld(s) && ReadsAlone(s, st) && st.Staff? && st.act.ReadConflict?
    ensures st.act.id !in s.changes
  {
  }

  lemma {:induction false} StaffKeepsOneAtATime(s: System, st: Step)
    requires CanTake(s, st) && st.Staff? && ChangesRecorded(s) && OneAtATime(s) && ReadsAlone(s, st)
    ensures OneAtATime(Take(s, st)) && !SecondWrite(s, st)
  {
    StaffKeepsHeld(s, st);
    if st.act.ReadConflict? {
      AloneIsUnchanged(s, st);
    }
    hide Do, ChangedIsHeld;
  }

  lemma {:induction false} SyncKeepsOneAtATime(s: System, t: System, id: nat)
    requires ChangesRecorded(s) && OneAtATime(s) && t.resolving == s.resolving && ChangedIsHeld(t)
    requires t.changes == s.changes || (t.changes == s.changes + [id] && id !in s.server.offline)
    ensures OneAtATime(t)
  {
    hide ChangedIsHeld;
  }

  lemma {:induction false} TakeKeepsOneAtATime(s: System, st: Step)
    requires CanTake(s, st) && ChangesRecorded(s) && OneAtATime(s) && ReadsAlone(s, st)
    ensures OneAtATime(Take(s, st)) && !SecondWrite(s, st)
  {
    hide Process, Execute, ComputeAckSeq, Advance, PendingBatch, PruneRows, MarkRows, ChangesRecorded, OneAtATime, RowsStay;
    var t := Take(s, st);
    match st
    case Staff(_) => StaffKeepsOneAtATime(s, st);
    case Serve(sv, ctx, now) =>
      var evt := sv.req.events[|sv.done|];
      ProcessChangesOnce(s.server, evt, ctx, now);
      ResultNamesEvent(s.server, evt, ctx, now);
      ProcessKeepsRows(s.server, evt, ctx, now);
      OneAtATimeHolds(s, t, evt.id);
    case ServeOther(evt, ctx, now) =>
      ProcessChangesOnce(s.server, evt, ctx, now);
      ProcessKeepsRows(s.server, evt, ctx, now);
      OneAtATimeHolds(s, t, evt.id);
    case _ =>
      SameRowsStay(s.server.offline);
      OneAtATimeHolds(s, t, 0);
  }

  lemma {:induction false} SameRowsStay(a: map<nat, OfflineRow>)
    ensures RowsStay(a, a)
  {
  }

  /** Nothing but an upload happened to the server. */
  lemma {:induction false} OneAtATimeHolds(s: System, t: System, id: nat)
    requires ChangesRecorded(s) && OneAtATime(s) && t.resolving == s.resolving
    requires RowsStay(s.server.offline, t.server.offline)
    requires t.changes == s.changes ||
             (t.changes == s.changes + [id] && id !in s.server.offline
              && id in t.server.offline && !t.server.offline[id].state.Conflicted?)
    ensures OneAtATime(t)
  {
    hide ChangesRecorded, RowsStay, ChangedIsHeld;
    SyncKeepsHeld(s, t, id);
    SyncKeepsOneAtATime(s, t, id);
  }

  predicate AllReadAlone(s: System, steps: seq<Step>)
    requires CanRun(s, steps)
    decreases |steps|
  {
    |steps| > 0 ==> ReadsAlone(s, steps[0]) && AllReadAlone(Take(s, steps[0]), steps[1..])
  }

  /** A guard that suffices: if no resolution of an event is begun while another one is unfinished,
      be it running or stopped, every event takes effect at most once. */
  lemma {:induction false} ResolvingAloneIsOnce(s: System, steps: seq<Step>)
    requires CanRun(s, steps) && ChangesRecorded(s) && Once(s) && OneAtATime(s) && AllReadAlone(s, steps)
    ensures OnceThroughout(s, steps)
    decreases |steps|
  {
    hide CanTake, Take, ChangesRecorded, Once, SecondWrite, OneAtATime, ReadsAlone;
    if |steps| > 0 {
      TakeKeepsOneAtATime(s, steps[0]);
      TakeChangesOnce(s, steps[0]);
      TakeChangesRecorded(s, steps[0]);
      ResolvingAloneIsOnce(Take(s, steps[0]), steps[1..]);
    }
  }

  /** Two resolutions of one event. Either the second reads before the first one writes, or the
      first one stops after its session write and the second one is the retry. */
  function TwiceSteps(cafe: nat, id: nat, k: nat, one: nat, two: nat, together: bool): seq<Step> {
    var read1, read2 := Staff(ReadConflict(one, cafe, id, AcceptOffline)), Staff(ReadConflict(two, cafe, id, AcceptOffline));
    var write1 := [Staff(LookUp(one, Some(k))), Staff(WriteExtension(one))];
    var write2 := [Staff(LookUp(two, Some(k))), Staff(WriteExtension(two))];
    if together then [read1] + ([read2] + (write1 + write2)) else [read1] + (write1 + ([read2] + write2))
  }

  /** A resolution that has read its event looks up session k and writes it. */
  lemma {:induction false} LookAndWrite(s: System, req: nat, k: nat)
    requires req in s.resolving && s.resolving[req].stage.Checked? && s.resolving[req].resolution.AcceptOffline?
    requires s.resolving[req].event.etype.SessionExtended? && s.resolving[req].event.payload.minutes.Number?
    requires s.resolving[req].event.payload.minutes.n != 0
    requires k < |s.server.sessions| && IsActiveOn(s.server.sessions[k], s.resolving[req].event.pc)
    ensures var steps, r, m := [Staff(LookUp(req, Some(k))), Staff(WriteExtension(req))], s.resolving[req],
                               s.resolving[req].event.payload.minutes.n;
            && CanRun(s, steps)
            && var row, t := s.server.sessions[k], After(s, steps);
               t == s.(server := s.server.(sessions := s.server.sessions[k := Rewritten(row, row, m)]),
                       resolving := s.resolving[req := r.(stage := Written)], changes := s.changes + [r.id])
  {
    hide CanRun, After;
    var look, write := Staff(LookUp(req, Some(k))), Staff(WriteExtension(req));
    var s1 := Take(s, look);
    var s2 := Take(s1, write);
    assert s2.server.sessions[k].extended != s.server.sessions[k].extended;
    RunNothing(s2);
    RunNext(s1, write, []);
    RunNext(s, look, [write] + []);
    assert [look] + ([write] + []) == [look, write];
  }

  /** Such a run adds the minutes twice, and the event has two effects. */
  lemma {:induction false} TwoResolutionsApplyTwice(s: System, cafe: nat, id: nat, k: nat, one: nat, two: nat, together: bool)
    requires one != two && one !in s.resolving && two !in s.resolving
    requires id in s.server.offline && s.server.offline[id].cafe == cafe && s.server.offline[id].state.Conflicted?
    requires s.server.offline[id].etype.SessionExtended? && s.server.offline[id].payload.minutes.Number?
    requires s.server.offline[id].payload.minutes.n != 0
    requires k < |s.server.sessions| && IsActiveOn(s.server.sessions[k], s.server.offline[id].pc)
    ensures var steps := TwiceSteps(cafe, id, k, one, two, together);
            && CanRun(s, steps) && !Once(After(s, steps)) && k < |After(s, steps).server.sessions|
            && After(s, steps).server.sessions[k].extended
               == s.server.sessions[k].extended + 2 * s.server.offline[id].payload.minutes.n
  {
    hide CanRun, After;
    var read1, read2 := Staff(ReadConflict(one, cafe, id, AcceptOffline)), Staff(ReadConflict(two, cafe, id, AcceptOffline));
    var write1 := [Staff(LookUp(one, Some(k))), Staff(WriteExtension(one))];
    var write2 := [Staff(LookUp(two, Some(k))), Staff(WriteExtension(two))];
    var s1 := Take(s, read1);
    if together {
      var s2 := Take(s1, read2);
      LookAndWrite(s2, one, k);
      var s3 := After(s2, write1);
      LookAndWrite(s3, two, k);
      var s4 := After(s3, write2);
      RunConcat(s2, write1, write2);
      RunNext(s1, read2, write1 + write2);
      RunNext(s, read1, [read2] + (write1 + write2));
      assert s4.changes[|s.changes|] == s4.changes[|s.changes| + 1];
    } else {
      LookAndWrite(s1, one, k);
      var s2 := After(s1, write1);
      var s3 := Take(s2, read2);
      LookAndWrite(s3, two, k);
      var s4 := After(s3, write2);
      RunNext(s2, read2, write2);
      RunConcat(s1, write1, [read2] + write2);
      RunNext(s, read1, write1 + ([read2] + write2));
      assert s4.changes[|s.changes|] == s4.changes[|s.changes| + 1];
    }
  }

  // ---- From the upload to the resolution ---------------------------------------

  /** An extension by n minutes that the upload recorded as conflicted keeps its n minutes through any
      run without a verdict on it: when staff then accept it, and nobody interferes, the session that
      is active on its PC is lengthened by n minutes, and by nothing if there is none. */
  lemma {:induction false} AcceptedLaterAddsMinutes(before: Server, evt: SyncEvent, ctx: Context, now: int, s: System,
                                                    steps: seq<Step>, active: Option<nat>)
    requires evt.etype.SessionExtended? && evt.payload.minutes.Number?
    requires Process(before, evt, ctx, now).result.state.Conflicted? && s.server == Process(before, evt, ctx, now).server
    requires CanRun(s, steps) && NeverJudged(s, steps, evt.id)
    requires IsSomeActive(After(s, steps).server.sessions, ctx.pc, active)
    ensures var u := After(s, steps).server;
            var r := ResolveConflict(u, ctx.cafe, evt.id, AcceptOffline, active);
            && r.problem.None? && |r.server.sessions| == |u.sessions| && evt.id in r.server.offline
            && r.server.offline[evt.id].state.Accepted? && r.server.offline[evt.id].reason.None?
            && (forall i :: 0 <= i < |u.sessions| && active != Some(i) ==> r.server.sessions[i] == u.sessions[i])
            && (active.Some? ==>
                  var was, row := u.sessions[active.value], r.server.sessions[active.value];
                  && row.extended == was.extended + evt.payload.minutes.n
                  && row.expiresAt == was.expiresAt + evt.payload.minutes.n * 60_000
                  && row.price == was.price)
  {
    hide CanRun, After, NeverJudged;
    RecordedRow(before, evt, ctx, now);
    hide Process;
    OnlyResolutionsJudge(s, steps, evt.id);
    ResolutionOutcome(After(s, steps).server, ctx.cafe, evt.id, AcceptOffline, active);
  }
}
