/** What the lifecycle does to money: the price of a session, the deltas that are logged, and the
    price of the same minutes bought at once. */
module Billing {
  import opened Domain
  import opened Pricing
  import opened SyncServer
  import opened Lifecycle

  // ---- The extension ledger ----------------------------------------------------

  /** What one logged happening says about the price of session `id`. */
  function Entry(e: SessionEvent, id: nat): int {
    if e.session != id then 0
    else match e.what
      case Started(_, Some(price)) => price
      case Extension(_, Some(delta)) => delta
      case _ => 0
  }

  function Ledger(log: seq<SessionEvent>, id: nat): int {
    if |log| == 0 then 0 else Ledger(log[..|log| - 1], id) + Entry(log[|log| - 1], id)
  }

  lemma {:induction false} LedgerAppend(log: seq<SessionEvent>, e: SessionEvent, id: nat)
    ensures Ledger(log + [e], id) == Ledger(log, id) + Entry(e, id)
  {
    assert (log + [e])[..|log|] == log;
  }

  lemma {:induction false} LedgerUnpriced(log: seq<SessionEvent>, more: seq<SessionEvent>, id: nat)
    requires forall k :: 0 <= k < |more| ==> Entry(more[k], id) == 0
    ensures Ledger(log + more, id) == Ledger(log, id)
    decreases |more|
  {
    if |more| == 0 {
      assert log + more == log;
    } else {
      var n := |more| - 1;
      LedgerUnpriced(log, more[..n], id);
      LedgerAppend(log + more[..n], more[n], id);
      assert log + more == log + more[..n] + [more[n]];
    }
  }

  ghost predicate NoFutureEntries(log: seq<SessionEvent>, n: nat) {
    forall k :: 0 <= k < |log| ==> log[k].session < n
  }

  lemma {:induction false} LedgerOfUnknown(log: seq<SessionEvent>, n: nat, id: nat)
    requires NoFutureEntries(log, n) && id >= n
    ensures Ledger(log, id) == 0
  {
    if |log| > 0 {
      LedgerOfUnknown(log[..|log| - 1], n, id);
    }
  }

  /** The price of a session started online is its start price plus the logged deltas. */
  ghost predicate Balanced(s: Server) {
    && NoFutureEntries(s.log, |s.sessions|)
    && forall i :: 0 <= i < |s.sessions| && !s.sessions[i].origin.SuperadminOffline?
                   ==> s.sessions[i].price == Ledger(s.log, i)
  }

  lemma {:induction false} SweepLogsPrices(s: Server, now: int, i: nat)
    requires Balanced(s) && i < |s.sessions| && !s.sessions[i].origin.SuperadminOffline?
    ensures Sweep(s, now).sessions[i].price == Ledger(Sweep(s, now).log, i)
  {
    hide Ledger;
    LedgerUnpriced(s.log, ExpiryLog(s.sessions, DueIds(s.sessions, now), now), i);
  }

  /** From `s` to `t` at most one happening is logged, with the price change made to session i. */
  ghost predicate LogsOnePrice(s: Server, t: Server, i: nat)
    requires i < |t.sessions|
  {
    var paid := if i < |s.sessions| then s.sessions[i].price else 0;
    && (t.log == s.log || (|t.log| == |s.log| + 1 && t.log[..|s.log|] == s.log))
    && (i < |s.sessions| ==> !s.sessions[i].origin.SuperadminOffline?)
    && t.sessions[i].price == paid + if t.log == s.log then 0 else Entry(t.log[|s.log|], i)
  }

  lemma {:induction false} SyncLogsOnePrice(s: Server, evt: SyncEvent, ctx: Context, now: int, i: nat)
    requires var t := Process(s, evt, ctx, now).server;
             i < |t.sessions| && !t.sessions[i].origin.SuperadminOffline?
    ensures LogsOnePrice(s, Process(s, evt, ctx, now).server, i)
  {
    hide Price;
  }

  /** Apart from a sweep, a transaction logs at most one happening, with the price change it
      makes to one session. */
  lemma {:induction false} StepLogsOnePrice(s: Server, op: Op, i: nat)
    requires !op.SweepOp?
    requires i < |Do(s, op).sessions| && !Do(s, op).sessions[i].origin.SuperadminOffline?
    ensures LogsOnePrice(s, Do(s, op), i)
  {
    hide Price;
    if op.SyncOp? {
      SyncLogsOnePrice(s, op.evt, op.ctx, op.now, i);
    } else {
      hide Process;
    }
  }

  /** One transaction logs what it does to each price. */
  lemma {:induction false} StepLogsPrices(s: Server, op: Op, i: nat)
    requires Balanced(s)
    requires i < |Do(s, op).sessions| && !Do(s, op).sessions[i].origin.SuperadminOffline?
    ensures Do(s, op).sessions[i].price == Ledger(Do(s, op).log, i)
  {
    if op.SweepOp? {
      SweepLogsPrices(s, op.now, i);
    } else {
      hide Do, Ledger, Entry;
      StepLogsOnePrice(s, op, i);
      var t := Do(s, op);
      if t.log != s.log {
        assert t.log == s.log + [t.log[|s.log|]];
        LedgerAppend(s.log, t.log[|s.log|], i);
      }
      if i >= |s.sessions| {
        LedgerOfUnknown(s.log, |s.sessions|, i);
      }
    }
  }

  lemma {:induction false} StepKeepsEntries(s: Server, op: Op)
    requires NoFutureEntries(s.log, |s.sessions|)
    ensures NoFutureEntries(Do(s, op).log, |Do(s, op).sessions|)
  {
    hide Price;
  }

  lemma {:induction false} StepKeepsBalance(s: Server, op: Op)
    requires Balanced(s)
    ensures Balanced(Do(s, op))
  {
    hide Do, Ledger;
    StepKeepsEntries(s, op);
    var t := Do(s, op);
    forall i | 0 <= i < |t.sessions| && !t.sessions[i].origin.SuperadminOffline?
      ensures t.sessions[i].price == Ledger(t.log, i)
    {
      StepLogsPrices(s, op, i);
    }
  }

  lemma {:induction false} ActKeepsBalance(d: Desk, act: Act)
    requires CanDo(d, act) && Balanced(d.server)
    ensures Balanced(Execute(d, act).server)
  {
    hide Do, Ledger;
    if act.Plain? {
      StepKeepsBalance(d.server, act.op);
    }
  }

  /** In every run the money adds up: price == start price + all recorded deltas. */
  lemma {:induction false} LedgerHolds(d: Desk, acts: seq<Act>)
    requires CanDoAll(d, acts) && Balanced(d.server)
    ensures Balanced(ExecuteAll(d, acts).server)
    decreases |acts|
  {
    hide CanDo, Execute, Balanced;
    if |acts| > 0 {
      ActKeepsBalance(d, acts[0]);
      LedgerHolds(Execute(d, acts[0]), acts[1..]);
    }
  }

  // ---- Stored bills ------------------------------------------------------------

  function BilledMinutes(bs: seq<Segment>): int {
    if |bs| == 0 then 0 else BilledMinutes(bs[..|bs| - 1]) + bs[|bs| - 1].minutes
  }

  /** The stored breakdown covers the time from the start without gap, and its rate-minutes, rounded
      once, are the price. */
  predicate Explained(row: Session) {
    && Tiles(row.breakdown, row.startedAt, row.startedAt + 60_000 * BilledMinutes(row.breakdown))
    && -30 < 60 * row.price - SegmentRateMinutes(row.breakdown) <= 30
  }

  ghost predicate AllExplained(s: Server) {
    forall i :: 0 <= i < |s.sessions| ==> Explained(s.sessions[i])
  }

  lemma {:induction false} TilesCount(bs: seq<Segment>, from: int, to: int)
    requires Tiles(bs, from, to)
    ensures to == from + 60_000 * BilledMinutes(bs)
  {
    if |bs| > 0 {
      TilesCount(bs[..|bs| - 1], from, bs[|bs| - 1].from);
    }
  }

  lemma {:induction false} PriceFromZero(rules: seq<Rule>, start: int, minutes: int, tier: Option<nat>)
    ensures Price(rules, start, minutes, tier) == Price(rules, start, if minutes < 0 then 0 else minutes, tier)
  {
    hide RateMinutes, Winners, Runs, Render, RoundHour;
  }

  lemma {:induction false} PriceIsExplained(row: Session, rules: seq<Rule>, minutes: int, tier: Option<nat>)
    requires PriceResult(row.price, row.breakdown) == Price(rules, row.startedAt, minutes, tier)
    ensures Explained(row) && BilledMinutes(row.breakdown) == if minutes < 0 then 0 else minutes
  {
    var n := if minutes < 0 then 0 else minutes;
    PriceFromZero(rules, row.startedAt, minutes, tier);
    hide Price, Tiles, SegmentRateMinutes, BilledMinutes, Decode, MinutePrices, Winners, Runs, Canonical, RateMinutes;
    BreakdownExplainsAmount(rules, row.startedAt, n, tier);
    TilesCount(row.breakdown, row.startedAt, row.startedAt + n * MINUTE_MS);
  }

  lemma {:induction false} SyncKeepsExplained(s: Server, evt: SyncEvent, ctx: Context, now: int)
    requires AllExplained(s)
    ensures AllExplained(Process(s, evt, ctx, now).server)
  {
    hide Price, Explained;
    if !Known(s.offline, ctx.pc, evt) {
      ConflictMatrix(s, evt, ctx, now);
      var a := Process(s, evt, ctx, now);
      if a.result.state.Accepted? {
        AcceptedOutcome(s, evt, ctx, now);
        hide Process, Known;
        var k := a.result.session.value;
        if evt.etype.SessionStarted? {
          PriceIsExplained(a.server.sessions[k], ctx.rules, a.server.sessions[k].planned, ctx.tier);
        } else {
          SameBillExplained(s.sessions[k], a.server.sessions[k]);
        }
      }
    }
  }

  lemma {:induction false} SameBillExplained(a: Session, b: Session)
    requires a.startedAt == b.startedAt && a.price == b.price && a.breakdown == b.breakdown
    ensures Explained(a) <==> Explained(b)
  {
  }

  lemma {:induction false} StepKeepsExplained(s: Server, op: Op)
    requires AllExplained(s)
    ensures AllExplained(Do(s, op))
  {
    hide Price, Explained;
    var t := Do(s, op);
    match op
    case SyncOp(evt, ctx, now) => SyncKeepsExplained(s, evt, ctx, now);
    case StartOp(cafe, input, row, rules, now) =>
      if t.sessions != s.sessions {
        PriceIsExplained(t.sessions[|s.sessions|], rules, input.planned, row.value.tier);
      }
    case ExtendOp(cafe, id, minutes, tier, rules, now) =>
      if t != s {
        var was := s.sessions[id];
        PriceIsExplained(t.sessions[id], rules, was.planned + was.extended + minutes, tier);
      }
    case _ =>
      forall i | 0 <= i < |t.sessions|
        ensures Explained(t.sessions[i])
      {
        SameBillExplained(s.sessions[i], t.sessions[i]);
      }
  }

  lemma {:induction false} ActKeepsExplained(d: Desk, act: Act)
    requires CanDo(d, act) && AllExplained(d.server)
    ensures AllExplained(Execute(d, act).server)
  {
    hide Do, Explained;
    if act.Plain? {
      StepKeepsExplained(d.server, act.op);
    } else if act.WriteExtension? {
      var k := d.resolving[act.req].stage.active.value.k;
      SameBillExplained(d.server.sessions[k], Execute(d, act).server.sessions[k]);
    }
  }

  /** In every run every stored breakdown explains the stored price, from the start without gap. */
  lemma {:induction false} BillsStayExplained(d: Desk, acts: seq<Act>)
    requires CanDoAll(d, acts) && AllExplained(d.server)
    ensures AllExplained(ExecuteAll(d, acts).server)
    decreases |acts|
  {
    hide CanDo, Execute, AllExplained;
    if |acts| > 0 {
      ActKeepsExplained(d, acts[0]);
      BillsStayExplained(Execute(d, acts[0]), acts[1..]);
    }
  }

  // ---- One-shot price ----------------------------------------------------------

  /** The price of all the session's minutes bought at once. */
  function FullPrice(row: Session, tierOf: nat -> Option<nat>, rules: seq<Rule>): int {
    Price(rules, row.startedAt, row.planned + row.extended, tierOf(row.pc)).amount
  }

  predicate OneShot(row: Session, tierOf: nat -> Option<nat>, rules: seq<Rule>) {
    row.price == FullPrice(row, tierOf, rules)
  }

  predicate AllOneShot(s: Server, tierOf: nat -> Option<nat>, rules: seq<Rule>) {
    forall i :: 0 <= i < |s.sessions| ==> OneShot(s.sessions[i], tierOf, rules)
  }

  /** The rules are loaded in no particular order. */
  ghost predicate SameRules(a: seq<Rule>, b: seq<Rule>) {
    forall r :: r in a <==> r in b
  }

  /** The operation prices with these rules and tiers. */
  ghost predicate FixedTariff(s: Server, op: Op, tierOf: nat -> Option<nat>, rules: seq<Rule>) {
    match op
    case StartOp(_, input, row, rs, _) => SameRules(rs, rules) && (row.Some? ==> row.value.tier == tierOf(input.pc))
    case ExtendOp(_, id, _, tier, rs, _) => SameRules(rs, rules) && (id < |s.sessions| ==> tier == tierOf(s.sessions[id].pc))
    case SyncOp(evt, ctx, _) => SameRules(ctx.rules, rules) && ctx.tier == tierOf(ctx.pc)
    case _ => true
  }

  /** The session that an offline extension is about to lengthen without pricing it. */
  function Lengthened(s: Server, op: Op): Option<nat> {
    if op.SyncOp? && op.evt.etype.SessionExtended? && !Known(s.offline, op.ctx.pc, op.evt)
    then LoadActiveSession(s.sessions, op.ctx.pc) else None
  }

  /** An unpriced extension adds nothing to the full price. */
  predicate FreeStep(s: Server, op: Op, tierOf: nat -> Option<nat>, rules: seq<Rule>) {
    var k := Lengthened(s, op);
    k.Some? ==>
      var row := s.sessions[k.value];
      FullPrice(row.(extended := row.extended + ExtensionMinutes(op.evt.payload)), tierOf, rules) == FullPrice(row, tierOf, rules)
  }

  lemma {:induction false} StartPriceIsOneShot(cafe: nat, input: StartInput, tier: Option<nat>, rs: seq<Rule>, now: int,
                                               tierOf: nat -> Option<nat>, rules: seq<Rule>)
    requires SameRules(rs, rules) && tier == tierOf(input.pc)
    ensures OneShot(OnlineRow(cafe, input, tier, rs, now), tierOf, rules)
  {
    PriceIgnoresRuleOrder(rs, rules, now, input.planned, tier);
  }

  lemma {:induction false} OfflineStartIsOneShot(evt: SyncEvent, ctx: Context, now: int, tierOf: nat -> Option<nat>, rules: seq<Rule>)
    requires SameRules(ctx.rules, rules) && ctx.tier == tierOf(ctx.pc)
    ensures OneShot(StartRow(evt, ctx, now), tierOf, rules)
  {
    PriceIgnoresRuleOrder(ctx.rules, rules, evt.occurredAt, PlannedMinutes(evt.payload), ctx.tier);
  }

  lemma {:induction false} ExtendedIsOneShot(row: Session, minutes: int, tier: Option<nat>, rs: seq<Rule>,
                                             tierOf: nat -> Option<nat>, rules: seq<Rule>)
    requires SameRules(rs, rules) && tier == tierOf(row.pc)
    ensures OneShot(ExtendedRow(row, minutes, tier, rs), tierOf, rules)
  {
    PriceIgnoresRuleOrder(rs, rules, row.startedAt, row.planned + row.extended + minutes, tier);
  }

  lemma {:induction false} OneRowOneShot(s: Server, t: Server, k: nat, tierOf: nat -> Option<nat>, rules: seq<Rule>)
    requires AllOneShot(s, tierOf, rules) && k < |t.sessions| && |s.sessions| <= |t.sessions|
    requires forall i :: 0 <= i < |t.sessions| && i != k ==> i < |s.sessions| && t.sessions[i] == s.sessions[i]
    ensures AllOneShot(t, tierOf, rules) <==> OneShot(t.sessions[k], tierOf, rules)
  {
    hide OneShot;
  }

  /** The rows that differ only in what the full price does not read. */
  lemma {:induction false} SameSaleSamePrice(s: Server, t: Server, tierOf: nat -> Option<nat>, rules: seq<Rule>)
    requires |s.sessions| == |t.sessions|
    requires forall i :: 0 <= i < |s.sessions| ==>
               var a, b := s.sessions[i], t.sessions[i];
               a.startedAt == b.startedAt && a.planned == b.planned && a.extended == b.extended && a.pc == b.pc && a.price == b.price
    ensures AllOneShot(s, tierOf, rules) <==> AllOneShot(t, tierOf, rules)
  {
    hide Price;
    forall i | 0 <= i < |s.sessions|
      ensures OneShot(s.sessions[i], tierOf, rules) <==> OneShot(t.sessions[i], tierOf, rules)
    {
      assert s.sessions[i].pc == t.sessions[i].pc;
    }
  }

  lemma {:induction false} SyncKeepsOneShot(s: Server, op: Op, tierOf: nat -> Option<nat>, rules: seq<Rule>)
    requires op.SyncOp? && AllOneShot(s, tierOf, rules) && FixedTariff(s, op, tierOf, rules)
    ensures AllOneShot(Do(s, op), tierOf, rules) <==> FreeStep(s, op, tierOf, rules)
  {
    hide Price, FullPrice, AllOneShot, Known;
    var t := Do(s, op);
    if Known(s.offline, op.ctx.pc, op.evt) {
    } else {
      var active := LoadActiveSession(s.sessions, op.ctx.pc);
      if op.evt.etype.SessionStarted? && active.None? {
        OfflineStartIsOneShot(op.evt, op.ctx, op.now, tierOf, rules);
        OneRowOneShot(s, t, |s.sessions|, tierOf, rules);
      } else if op.evt.etype.SessionExtended? && active.Some? {
        var k, row := active.value, s.sessions[active.value];
        OneRowOneShot(s, t, k, tierOf, rules);
        LengthenedPrice(s, t, k, ExtensionMinutes(op.evt.payload), tierOf, rules);
      } else {
        SameSaleSamePrice(s, t, tierOf, rules);
      }
    }
  }

  lemma {:induction false} LengthenedPrice(s: Server, t: Server, k: nat, minutes: int, tierOf: nat -> Option<nat>, rules: seq<Rule>)
    requires AllOneShot(s, tierOf, rules) && k < |s.sessions| == |t.sessions|
    requires var row := s.sessions[k];
             t.sessions[k].(expiresAt := row.expiresAt) == row.(extended := row.extended + minutes)
    ensures var row := s.sessions[k];
            OneShot(t.sessions[k], tierOf, rules) <==>
            FullPrice(row.(extended := row.extended + minutes), tierOf, rules) == FullPrice(row, tierOf, rules)
  {
    hide Price;
    assert OneShot(s.sessions[k], tierOf, rules);
  }

  lemma {:induction false} StepKeepsOneShot(s: Server, op: Op, tierOf: nat -> Option<nat>, rules: seq<Rule>)
    requires AllOneShot(s, tierOf, rules) && FixedTariff(s, op, tierOf, rules)
    ensures AllOneShot(Do(s, op), tierOf, rules) <==> FreeStep(s, op, tierOf, rules)
  {
    hide Price, AllOneShot, OneShot, FullPrice, Process;
    var t := Do(s, op);
    match op
    case SyncOp(_, _, _) => SyncKeepsOneShot(s, op, tierOf, rules);
    case StartOp(cafe, input, row, rs, now) =>
      if t.sessions != s.sessions {
        StartPriceIsOneShot(cafe, input, row.value.tier, rs, now, tierOf, rules);
        OneRowOneShot(s, t, |s.sessions|, tierOf, rules);
      } else {
        SameSaleSamePrice(s, t, tierOf, rules);
      }
    case ExtendOp(cafe, id, minutes, tier, rs, now) =>
      if t != s {
        ExtendedIsOneShot(s.sessions[id], minutes, tier, rs, tierOf, rules);
        OneRowOneShot(s, t, id, tierOf, rules);
      }
    case _ => SameSaleSamePrice(s, t, tierOf, rules);
  }

  ghost predicate FixedTariffAct(d: Desk, act: Act, tierOf: nat -> Option<nat>, rules: seq<Rule>) {
    act.Plain? ==> FixedTariff(d.server, act.op, tierOf, rules)
  }

  /** The act leaves the full price of each session as it was, or settles it. */
  predicate FreeAct(d: Desk, act: Act, tierOf: nat -> Option<nat>, rules: seq<Rule>)
    requires CanDo(d, act)
  {
    match act
    case Plain(op) => FreeStep(d.server, op, tierOf, rules)
    case WriteExtension(req) =>
      var k := d.resolving[req].stage.active.value.k;
      FullPrice(Execute(d, act).server.sessions[k], tierOf, rules) == FullPrice(d.server.sessions[k], tierOf, rules)
    case _ => true
  }

  lemma {:induction false} ActKeepsOneShot(d: Desk, act: Act, tierOf: nat -> Option<nat>, rules: seq<Rule>)
    requires CanDo(d, act) && AllOneShot(d.server, tierOf, rules) && FixedTariffAct(d, act, tierOf, rules)
    ensures AllOneShot(Execute(d, act).server, tierOf, rules) <==> FreeAct(d, act, tierOf, rules)
  {
    hide Do, FullPrice, FreeStep, FixedTariff;
    var t := Execute(d, act).server;
    if act.Plain? {
      StepKeepsOneShot(d.server, act.op, tierOf, rules);
    } else if act.WriteExtension? {
      var k := d.resolving[act.req].stage.active.value.k;
      OneRowOneShot(d.server, t, k, tierOf, rules);
      assert OneShot(d.server.sessions[k], tierOf, rules);
      assert t.sessions[k].price == d.server.sessions[k].price;
    }
  }

  ghost predicate FixedTariffRun(d: Desk, acts: seq<Act>, tierOf: nat -> Option<nat>, rules: seq<Rule>)
    requires CanDoAll(d, acts)
    decreases |acts|
  {
    |acts| > 0 ==> FixedTariffAct(d, acts[0], tierOf, rules) && FixedTariffRun(Execute(d, acts[0]), acts[1..], tierOf, rules)
  }

  predicate OneShotThroughout(d: Desk, acts: seq<Act>, tierOf: nat -> Option<nat>, rules: seq<Rule>)
    requires CanDoAll(d, acts)
    decreases |acts|
  {
    AllOneShot(d.server, tierOf, rules) && (|acts| > 0 ==> OneShotThroughout(Execute(d, acts[0]), acts[1..], tierOf, rules))
  }

  predicate AllFree(d: Desk, acts: seq<Act>, tierOf: nat -> Option<nat>, rules: seq<Rule>)
    requires CanDoAll(d, acts)
    decreases |acts|
  {
    |acts| > 0 ==> FreeAct(d, acts[0], tierOf, rules) && AllFree(Execute(d, acts[0]), acts[1..], tierOf, rules)
  }

  /** With a fixed tariff every session always costs what its total minutes cost in one purchase,
      however its extensions were split, if and only if no offline extension and no resolution
      adds minutes that have a price. */
  lemma {:induction false} OneShotExactly(d: Desk, acts: seq<Act>, tierOf: nat -> Option<nat>, rules: seq<Rule>)
    requires CanDoAll(d, acts) && FixedTariffRun(d, acts, tierOf, rules) && AllOneShot(d.server, tierOf, rules)
    ensures OneShotThroughout(d, acts, tierOf, rules) <==> AllFree(d, acts, tierOf, rules)
    decreases |acts|
  {
    hide CanDo, Execute, AllOneShot, FixedTariffAct, FreeAct;
    if |acts| > 0 {
      ActKeepsOneShot(d, acts[0], tierOf, rules);
      if AllOneShot(Execute(d, acts[0]).server, tierOf, rules) {
        OneShotExactly(Execute(d, acts[0]), acts[1..], tierOf, rules);
      }
    }
  }

  predicate OnlineOnly(acts: seq<Act>) {
    forall i :: 0 <= i < |acts| ==>
      !acts[i].WriteExtension? && !(acts[i].Plain? && acts[i].op.SyncOp? && acts[i].op.evt.etype.SessionExtended?)
  }

  /** In particular splitting online extensions is free. */
  lemma {:induction false} SplittingExtensionsIsFree(d: Desk, acts: seq<Act>, tierOf: nat -> Option<nat>, rules: seq<Rule>)
    requires CanDoAll(d, acts) && FixedTariffRun(d, acts, tierOf, rules) && AllOneShot(d.server, tierOf, rules)
    requires OnlineOnly(acts)
    ensures AllOneShot(ExecuteAll(d, acts).server, tierOf, rules)
    decreases |acts|
  {
    hide CanDo, Execute, AllOneShot, FixedTariffAct, FullPrice;
    if |acts| > 0 {
      ActKeepsOneShot(d, acts[0], tierOf, rules);
      SplittingExtensionsIsFree(Execute(d, acts[0]), acts[1..], tierOf, rules);
    }
  }

  /** An unpriced extension by m minutes is free exactly if the rate-minutes it adds stay within
      the rounding step of what was paid. */
  lemma {:induction false} UnpricedIsFreeExactly(row: Session, m: nat, tierOf: nat -> Option<nat>, rules: seq<Rule>)
    requires row.planned + row.extended >= 0
    ensures var total, tier := row.planned + row.extended, tierOf(row.pc);
            FullPrice(row.(extended := row.extended + m), tierOf, rules) == FullPrice(row, tierOf, rules) <==>
            0 <= (RateMinutes(rules, tier, row.startedAt, total) + 30) % 60
                 + RateMinutes(rules, tier, row.startedAt + total * MINUTE_MS, m) < 60
  {
    hide RateMinutes, Render, Runs;
    LongerIsFreeExactly(rules, tierOf(row.pc), row.startedAt, row.planned + row.extended, m);
  }

  /** One hour bought online and one added offline, at a flat rate: two hours are played, one is
      paid. */
  lemma {:induction false} OfflineExtensionGoesUnpaid(cafe: nat, pc: nat, rate: int, tierOf: nat -> Option<nat>)
    ensures var rules, row := [FlatRule(rate)], PcRow(cafe, tierOf(pc), Online);
            var s := Do(EmptyDesk().server, StartOp(cafe, StartInput(pc, 60, Admin, None), Some(row), rules, 0));
            var evt := SyncEvent(0, 1, SessionExtended, 0, Payload(None, Missing, Number(60)));
            var t := Do(s, SyncOp(evt, Context(cafe, pc, tierOf(pc), rules), 0));
            && |t.sessions| == 1 && t.sessions[0].planned + t.sessions[0].extended == 120
            && t.sessions[0].price == rate && FullPrice(t.sessions[0], tierOf, rules) == 2 * rate
  {
    hide Price;
    var rules, row := [FlatRule(rate)], PcRow(cafe, tierOf(pc), Online);
    var input := StartInput(pc, 60, Admin, None);
    var s := Do(EmptyDesk().server, StartOp(cafe, input, Some(row), rules, 0));
    assert s.sessions == [OnlineRow(cafe, input, tierOf(pc), rules, 0)];
    assert IsLatestActive(s.sessions, pc, LoadActiveSession(s.sessions, pc));
    assert IsActiveOn(s.sessions[0], pc);
    FlatPrice(rate, tierOf(pc), 0, 60);
    FlatPrice(rate, tierOf(pc), 0, 120);
  }

  /** An online extension always settles the account: afterwards the session costs the one-shot
      price of all its minutes, including offline minutes that were never priced before. */
  lemma {:induction false} ExtensionReprices(s: Server, op: Op, tierOf: nat -> Option<nat>)
    requires op.ExtendOp? && op.id < |s.sessions| && op.tier == tierOf(s.sessions[op.id].pc)
    requires ExtendSession(s, op.cafe, op.id, op.minutes, op.tier, op.rules, op.now).problem.None?
    ensures OneShot(Do(s, op).sessions[op.id], tierOf, op.rules)
    ensures Do(s, op).sessions[op.id].extended == s.sessions[op.id].extended + op.minutes
  {
    hide Price;
  }
}
