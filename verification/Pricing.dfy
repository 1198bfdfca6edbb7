/** The pricing engine: a per-minute scan for the winning rule, folded into run-length
    segments, and one half-up rounding at the end. */
module Pricing {
  import opened Domain

  const DAY_MIN := 1440
  const DAY_MS := 86_400_000

  /** `startMin` and `endMin` are minutes of the day, as read from `start_time` and `end_time`. */
  datatype Rule = Rule(
    id: Option<string>, name: Option<string>, tier: Option<nat>, days: seq<int>,
    startMin: int, endMin: int, rate: int, priority: int, active: bool)

  datatype PriceResult = PriceResult(amount: int, breakdown: seq<Segment>)

  // ---- Rule windows ------------------------------------------------------------

  function RuleWindow(rule: Rule): (int, int) {
    (rule.startMin, if rule.endMin <= rule.startMin then rule.endMin + DAY_MIN else rule.endMin)
  }

  predicate MatchesMinute(rule: Rule, minuteOfDay: int) {
    var (startMin, endMin) := RuleWindow(rule);
    if endMin > DAY_MIN then minuteOfDay >= startMin || minuteOfDay < endMin - DAY_MIN
    else startMin <= minuteOfDay < endMin
  }

  /** Start and end are times from 00:00 to 24:00. */
  predicate Clocked(rule: Rule) {
    0 <= rule.startMin <= DAY_MIN && 0 <= rule.endMin <= DAY_MIN
  }

  /** From 24:00 to 00:00 is no minute at all, not a day. */
  function WindowLength(rule: Rule): int {
    if rule.startMin == DAY_MIN && rule.endMin == 0 then 0 else (rule.endMin - rule.startMin - 1) % DAY_MIN + 1
  }

  /** A window is the cyclic interval of WindowLength minutes that begins at the start time;
      equal times mean the whole day. */
  lemma {:induction false} WindowIsCyclic(rule: Rule, m: int)
    requires Clocked(rule) && 0 <= m < DAY_MIN
    ensures MatchesMinute(rule, m) <==> (m - rule.startMin) % DAY_MIN < WindowLength(rule)
    ensures rule.startMin == rule.endMin ==> MatchesMinute(rule, m)
  {
    var d := m - rule.startMin;
    assert d % DAY_MIN == if d < 0 then d + DAY_MIN else d;
    var e := rule.endMin - rule.startMin - 1;
    assert e >= -DAY_MIN ==> e % DAY_MIN == if e < 0 then e + DAY_MIN else e;
  }

  /** A window and the same window with its times swapped cover each minute exactly once. */
  lemma {:induction false} SwappedWindowsPartitionTheDay(rule: Rule, m: int)
    requires Clocked(rule) && rule.startMin != rule.endMin && 0 <= m < DAY_MIN
    ensures MatchesMinute(rule, m) != MatchesMinute(rule.(startMin := rule.endMin, endMin := rule.startMin), m)
    ensures WindowLength(rule) + WindowLength(rule.(startMin := rule.endMin, endMin := rule.startMin)) == DAY_MIN
  {
    var e := rule.endMin - rule.startMin - 1;
    assert e >= -DAY_MIN ==> e % DAY_MIN == if e < 0 then e + DAY_MIN else e;
    var f := rule.startMin - rule.endMin - 1;
    assert f >= -DAY_MIN ==> f % DAY_MIN == if f < 0 then f + DAY_MIN else f;
  }

  // ---- The winning rule --------------------------------------------------------

  predicate Eligible(rule: Rule, tier: Option<nat>, day: int, minuteOfDay: int) {
    && rule.active
    && (rule.tier.None? || rule.tier == tier)
    && day in rule.days
    && MatchesMinute(rule, minuteOfDay)
  }

  predicate Beats(a: Rule, b: Rule) {
    a.priority > b.priority || (a.priority == b.priority && a.rate > b.rate)
  }

  /** `w` is the first of the rules, in list order, that no eligible one beats. */
  ghost predicate IsWinner(rules: seq<Rule>, n: nat, tier: Option<nat>, day: int, minuteOfDay: int, w: Option<nat>)
    requires n <= |rules|
  {
    match w
    case None => forall i :: 0 <= i < n ==> !Eligible(rules[i], tier, day, minuteOfDay)
    case Some(k) =>
      && k < n
      && Eligible(rules[k], tier, day, minuteOfDay)
      && (forall i :: 0 <= i < n && Eligible(rules[i], tier, day, minuteOfDay) ==> !Beats(rules[i], rules[k]))
      && (forall i :: 0 <= i < k && Eligible(rules[i], tier, day, minuteOfDay) ==> Beats(rules[k], rules[i]))
  }

  /** The winner among the first `n` rules, as an index: two equal rules stay two rules. */
  function WinnerAmong(rules: seq<Rule>, n: nat, tier: Option<nat>, day: int, minuteOfDay: int): (w: Option<nat>)
    requires n <= |rules|
    ensures IsWinner(rules, n, tier, day, minuteOfDay, w)
  {
    if n == 0 then None
    else
      var w := WinnerAmong(rules, n - 1, tier, day, minuteOfDay);
      if Eligible(rules[n - 1], tier, day, minuteOfDay) && (w.None? || Beats(rules[n - 1], rules[w.value]))
      then Some(n - 1)
      else w
  }

  function Winner(rules: seq<Rule>, tier: Option<nat>, day: int, minuteOfDay: int): Option<nat> {
    WinnerAmong(rules, |rules|, tier, day, minuteOfDay)
  }

  lemma {:induction false} WinnerUnique(rules: seq<Rule>, tier: Option<nat>, day: int, m: int, w: Option<nat>)
    requires IsWinner(rules, |rules|, tier, day, m, w)
    ensures w == Winner(rules, tier, day, m)
  {
    hide MatchesMinute;
  }

  method PickWinner(rules: seq<Rule>, tier: Option<nat>, day: int, minuteOfDay: int) returns (winner: Option<nat>)
    ensures IsWinner(rules, |rules|, tier, day, minuteOfDay, winner)
  {
    hide MatchesMinute;
    winner := None;
    for i := 0 to |rules|
      invariant IsWinner(rules, i, tier, day, minuteOfDay, winner)
    {
      var rule := rules[i];
      if !rule.active { continue; }
      if rule.tier.Some? && rule.tier != tier { continue; }
      if day !in rule.days { continue; }
      if !MatchesMinute(rule, minuteOfDay) { continue; }
      if winner.None? || rule.priority > rules[winner.value].priority
         || (rule.priority == rules[winner.value].priority && rule.rate > rules[winner.value].rate) {
        winner := Some(i);
      }
    }
  }

  function RateOf(rules: seq<Rule>, w: Option<nat>): int {
    if w.Some? && w.value < |rules| then rules[w.value].rate else 0
  }

  /** The winning rate depends only on which rules there are, not on their order. */
  lemma {:induction false} WinningRateIgnoresOrder(rules: seq<Rule>, others: seq<Rule>, tier: Option<nat>, day: int, m: int)
    requires forall r :: r in rules <==> r in others
    ensures RateOf(rules, Winner(rules, tier, day, m)) == RateOf(others, Winner(others, tier, day, m))
  {
    hide MatchesMinute;
    var v, w := Winner(rules, tier, day, m), Winner(others, tier, day, m);
    if v.Some? {
      assert rules[v.value] in others;
    }
    if w.Some? {
      assert others[w.value] in rules;
    }
  }

  // ---- Minutes and rate-minutes ------------------------------------------------

  function DayOfWeek(t: int): int {
    (t / DAY_MS + 4) % 7
  }

  function MinuteOfDay(t: int): int {
    t % DAY_MS / MINUTE_MS
  }

  function MinuteWinner(rules: seq<Rule>, tier: Option<nat>, start: int, i: int): Option<nat> {
    var t := start + i * MINUTE_MS;
    Winner(rules, tier, DayOfWeek(t), MinuteOfDay(t))
  }

  /** The winner of each of the first `n` minutes after `start`. */
  function Winners(rules: seq<Rule>, tier: Option<nat>, start: int, n: nat): (ws: seq<Option<nat>>)
    ensures |ws| == n
  {
    seq(n, i => MinuteWinner(rules, tier, start, i))
  }

  /** The integral of the winning rate over the first `n` minutes. */
  function RateMinutes(rules: seq<Rule>, tier: Option<nat>, start: int, n: nat): int {
    if n == 0 then 0
    else RateMinutes(rules, tier, start, n - 1) + RateOf(rules, MinuteWinner(rules, tier, start, n - 1))
  }

  /** `Math.round(x / 60)`. */
  function RoundHour(rateMinutes: int): int {
    (rateMinutes + 30) / 60
  }

  lemma {:induction false} RoundHourIsNearest(x: int)
    ensures -30 < 60 * RoundHour(x) - x <= 30
  {
  }

  // ---- Run-length encoding -----------------------------------------------------

  datatype Run = Run(winner: Option<nat>, count: int)

  function Runs(ws: seq<Option<nat>>): seq<Run> {
    if |ws| == 0 then [] else Append(Runs(ws[..|ws| - 1]), ws[|ws| - 1])
  }

  function Append(rs: seq<Run>, w: Option<nat>): seq<Run> {
    var last := |rs| - 1;
    if last >= 0 && rs[last].winner == w then rs[..last] + [Run(w, rs[last].count + 1)] else rs + [Run(w, 1)]
  }

  function Expand(rs: seq<Run>): seq<Option<nat>> {
    if |rs| == 0 then []
    else Expand(rs[..|rs| - 1]) + Repeat(rs[|rs| - 1].winner, rs[|rs| - 1].count)
  }

  function Repeat<T>(x: T, n: int): (xs: seq<T>)
    ensures |xs| == if n < 0 then 0 else n
    ensures forall i :: 0 <= i < |xs| ==> xs[i] == x
  {
    if n <= 0 then [] else Repeat(x, n - 1) + [x]
  }

  /** No run is empty and no two neighbours could be merged. */
  predicate Canonical(rs: seq<Run>) {
    && (forall i :: 0 <= i < |rs| ==> rs[i].count > 0)
    && (forall i :: 0 <= i < |rs| - 1 ==> rs[i].winner != rs[i + 1].winner)
  }

  lemma {:induction false} ExpandAppend(rs: seq<Run>, w: Option<nat>)
    requires |rs| > 0 ==> rs[|rs| - 1].count > 0
    ensures Expand(Append(rs, w)) == Expand(rs) + [w]
  {
    var last := |rs| - 1;
    if last >= 0 && rs[last].winner == w {
      assert Append(rs, w)[..last] == rs[..last];
    } else {
      assert (rs + [Run(w, 1)])[..|rs|] == rs;
      assert Repeat(w, 1) == [w];
    }
  }

  lemma {:induction false} ExpandNothing()
    ensures Expand([]) == []
  {
  }

  lemma {:induction false} AppendCanonical(rs: seq<Run>, w: Option<nat>)
    requires Canonical(rs)
    ensures Canonical(Append(rs, w))
  {
  }

  lemma {:induction false} RunsAreCanonical(ws: seq<Option<nat>>)
    ensures Canonical(Runs(ws))
  {
    if |ws| > 0 {
      RunsAreCanonical(ws[..|ws| - 1]);
      AppendCanonical(Runs(ws[..|ws| - 1]), ws[|ws| - 1]);
    }
  }

  /** Run-length encoding loses nothing and yields non-empty, maximal runs. */
  lemma {:induction false} RunsDecode(ws: seq<Option<nat>>)
    ensures Expand(Runs(ws)) == ws
    ensures Canonical(Runs(ws))
  {
    hide Append, Expand;
    RunsAreCanonical(ws);
    if |ws| == 0 {
      ExpandNothing();
    } else {
      var front, w := ws[..|ws| - 1], ws[|ws| - 1];
      RunsDecode(front);
      ExpandAppend(Runs(front), w);
      assert ws == front + [w];
    }
  }

  lemma {:induction false} RunsAppend(ws: seq<Option<nat>>, w: Option<nat>)
    ensures Runs(ws + [w]) == Append(Runs(ws), w)
  {
    assert (ws + [w])[..|ws|] == ws;
  }

  /** The runs without their last minute. */
  function Shorten(rs: seq<Run>): seq<Run>
    requires |rs| > 0
  {
    var front, r := rs[..|rs| - 1], rs[|rs| - 1];
    if r.count == 1 then front else front + [Run(r.winner, r.count - 1)]
  }

  /** Conversely, canonical runs are the encoding of what they stand for. */
  lemma {:induction false} RunsEncode(rs: seq<Run>)
    requires Canonical(rs)
    ensures Runs(Expand(rs)) == rs
    decreases |rs|, if |rs| == 0 then 0 else rs[|rs| - 1].count
  {
    if |rs| > 0 {
      var shorter, w := Shorten(rs), rs[|rs| - 1].winner;
      assert Append(shorter, w) == rs;
      RunsEncode(shorter);
      ExpandAppend(shorter, w);
      RunsAppend(Expand(shorter), w);
    }
  }

  // ---- Price breakdown ---------------------------------------------------------

  function RuleLabel(rules: seq<Rule>, w: Option<nat>): Option<string> {
    if w.None? || w.value >= |rules| then None
    else if rules[w.value].name.Some? then rules[w.value].name
    else rules[w.value].id
  }

  function TotalCount(rs: seq<Run>): int {
    if |rs| == 0 then 0 else TotalCount(rs[..|rs| - 1]) + rs[|rs| - 1].count
  }

  function Render(rules: seq<Rule>, start: int, rs: seq<Run>): seq<Segment> {
    if |rs| == 0 then []
    else
      var front, r := rs[..|rs| - 1], rs[|rs| - 1];
      Render(rules, start, front) + [RenderRun(rules, start + TotalCount(front) * MINUTE_MS, r)]
  }

  function RenderRun(rules: seq<Rule>, from: int, r: Run): Segment {
    Segment(from, from + r.count * MINUTE_MS, RuleLabel(rules, r.winner), RateOf(rules, r.winner), r.count)
  }

  function SegmentRateMinutes(bs: seq<Segment>): int {
    if |bs| == 0 then 0 else SegmentRateMinutes(bs[..|bs| - 1]) + bs[|bs| - 1].rate * bs[|bs| - 1].minutes
  }

  /** What one priced minute says: the rule's label and its rate. */
  datatype MinutePrice = MinutePrice(rule: Option<string>, rate: int)

  function Decode(bs: seq<Segment>): seq<MinutePrice> {
    if |bs| == 0 then []
    else
      var b := bs[|bs| - 1];
      Decode(bs[..|bs| - 1]) + Repeat(MinutePrice(b.rule, b.rate), b.minutes)
  }

  function MinutePrices(rules: seq<Rule>, ws: seq<Option<nat>>): seq<MinutePrice> {
    seq(|ws|, i requires 0 <= i < |ws| => MinutePrice(RuleLabel(rules, ws[i]), RateOf(rules, ws[i])))
  }

  /** Non-empty segments that follow each other from `from` to `to` without gap or overlap. */
  predicate Tiles(bs: seq<Segment>, from: int, to: int) {
    if |bs| == 0 then from == to
    else
      var b := bs[|bs| - 1];
      b.minutes > 0 && b.to == to && b.from == to - b.minutes * MINUTE_MS && Tiles(bs[..|bs| - 1], from, b.from)
  }

  function Price(rules: seq<Rule>, start: int, minutes: int, tier: Option<nat>): PriceResult {
    var n := if minutes < 0 then 0 else minutes;
    PriceResult(RoundHour(RateMinutes(rules, tier, start, n)), Render(rules, start, Runs(Winners(rules, tier, start, n))))
  }

  lemma {:induction false} PricesConcat(rules: seq<Rule>, ws: seq<Option<nat>>, w: Option<nat>, n: int)
    ensures MinutePrices(rules, ws + Repeat(w, n))
         == MinutePrices(rules, ws) + Repeat(MinutePrice(RuleLabel(rules, w), RateOf(rules, w)), n)
  {
    hide RuleLabel, RateOf;
  }

  lemma {:induction false} NoPrices(rules: seq<Rule>)
    ensures MinutePrices(rules, []) == []
  {
  }

  lemma {:induction false} ExpandCounts(rs: seq<Run>)
    requires forall i :: 0 <= i < |rs| ==> rs[i].count > 0
    ensures |Expand(rs)| == TotalCount(rs)
  {
    if |rs| > 0 {
      ExpandCounts(rs[..|rs| - 1]);
    }
  }

  lemma {:induction false} RenderTiles(rules: seq<Rule>, start: int, rs: seq<Run>)
    requires forall i :: 0 <= i < |rs| ==> rs[i].count > 0
    ensures |Render(rules, start, rs)| == |rs|
    ensures Tiles(Render(rules, start, rs), start, start + TotalCount(rs) * MINUTE_MS)
  {
    hide RuleLabel, RateOf;
    if |rs| > 0 {
      var front := rs[..|rs| - 1];
      RenderTiles(rules, start, front);
      var bs := Render(rules, start, rs);
      assert bs[..|bs| - 1] == Render(rules, start, front);
    }
  }

  lemma {:induction false} RenderDecodes(rules: seq<Rule>, start: int, rs: seq<Run>)
    ensures Decode(Render(rules, start, rs)) == MinutePrices(rules, Expand(rs))
  {
    hide MinutePrices, RuleLabel, RateOf, Repeat, TotalCount;
    if |rs| == 0 {
      NoPrices(rules);
    } else {
      var front, r := rs[..|rs| - 1], rs[|rs| - 1];
      RenderDecodes(rules, start, front);
      var bs := Render(rules, start, rs);
      assert bs[..|bs| - 1] == Render(rules, start, front);
      PricesConcat(rules, Expand(front), r.winner, r.count);
    }
  }

  lemma {:induction false} WinnersStep(rules: seq<Rule>, tier: Option<nat>, start: int, n: nat)
    requires n > 0
    ensures Winners(rules, tier, start, n)[..n - 1] == Winners(rules, tier, start, n - 1)
    ensures Winners(rules, tier, start, n)[n - 1] == MinuteWinner(rules, tier, start, n - 1)
  {
  }

  lemma {:induction false} RunsOfWinnersStep(rules: seq<Rule>, tier: Option<nat>, start: int, n: nat)
    ensures Runs(Winners(rules, tier, start, n + 1))
         == Append(Runs(Winners(rules, tier, start, n)), MinuteWinner(rules, tier, start, n))
  {
    WinnersStep(rules, tier, start, n + 1);
  }

  function RunRateMinutes(rules: seq<Rule>, rs: seq<Run>): int {
    if |rs| == 0 then 0
    else RunRateMinutes(rules, rs[..|rs| - 1]) + RateOf(rules, rs[|rs| - 1].winner) * rs[|rs| - 1].count
  }

  lemma {:induction false} RunsIntegrate(rules: seq<Rule>, tier: Option<nat>, start: int, n: nat)
    ensures RunRateMinutes(rules, Runs(Winners(rules, tier, start, n))) == RateMinutes(rules, tier, start, n)
  {
    if n > 0 {
      RunsIntegrate(rules, tier, start, n - 1);
      WinnersStep(rules, tier, start, n);
      var rs := Runs(Winners(rules, tier, start, n - 1));
      AppendIntegrates(rules, rs, MinuteWinner(rules, tier, start, n - 1));
    }
  }

  lemma {:induction false} OneMinuteMore(rate: int, count: int)
    ensures rate * (count + 1) == rate * count + rate
  {
  }

  lemma {:induction false} LongerRunIntegrates(rules: seq<Rule>, front: seq<Run>, r: Run)
    ensures RunRateMinutes(rules, front + [r.(count := r.count + 1)])
         == RunRateMinutes(rules, front + [r]) + RateOf(rules, r.winner)
  {
    hide RateOf;
    assert (front + [r])[..|front|] == front && (front + [r.(count := r.count + 1)])[..|front|] == front;
    OneMinuteMore(RateOf(rules, r.winner), r.count);
  }

  lemma {:induction false} NewRunIntegrates(rules: seq<Rule>, rs: seq<Run>, w: Option<nat>)
    ensures RunRateMinutes(rules, rs + [Run(w, 1)]) == RunRateMinutes(rules, rs) + RateOf(rules, w)
  {
    hide RateOf;
    assert (rs + [Run(w, 1)])[..|rs|] == rs;
  }

  lemma {:induction false} AppendIntegrates(rules: seq<Rule>, rs: seq<Run>, w: Option<nat>)
    ensures RunRateMinutes(rules, Append(rs, w)) == RunRateMinutes(rules, rs) + RateOf(rules, w)
  {
    hide RateOf, RunRateMinutes;
    var last := |rs| - 1;
    if last >= 0 && rs[last].winner == w {
      LongerRunIntegrates(rules, rs[..last], rs[last]);
      assert rs[..last] + [rs[last]] == rs;
    } else {
      NewRunIntegrates(rules, rs, w);
    }
  }

  lemma {:induction false} RenderIntegrates(rules: seq<Rule>, start: int, rs: seq<Run>)
    ensures SegmentRateMinutes(Render(rules, start, rs)) == RunRateMinutes(rules, rs)
  {
    if |rs| > 0 {
      var bs := Render(rules, start, rs);
      assert bs[..|bs| - 1] == Render(rules, start, rs[..|rs| - 1]);
      RenderIntegrates(rules, start, rs[..|rs| - 1]);
    }
  }

  /** The bill explains itself: read back minute by minute it is the sequence of winners, its
      segments tile exactly the priced interval, and its amount is one half-up rounding of
      the rate-minutes that the segments list. */
  lemma {:induction false} BreakdownExplainsAmount(rules: seq<Rule>, start: int, minutes: int, tier: Option<nat>)
    requires minutes >= 0
    ensures var r := Price(rules, start, minutes, tier);
            && Decode(r.breakdown) == MinutePrices(rules, Winners(rules, tier, start, minutes))
            && Tiles(r.breakdown, start, start + minutes * MINUTE_MS)
            && |r.breakdown| == |Runs(Winners(rules, tier, start, minutes))|
            && Canonical(Runs(Winners(rules, tier, start, minutes)))
            && -30 < 60 * r.amount - SegmentRateMinutes(r.breakdown) <= 30
            && SegmentRateMinutes(r.breakdown) == RateMinutes(rules, tier, start, minutes)
  {
    hide Runs, Expand, Render, Decode, Tiles, MinutePrices, RateMinutes, RunRateMinutes, SegmentRateMinutes;
    var ws := Winners(rules, tier, start, minutes);
    RunsDecode(ws);
    ExpandCounts(Runs(ws));
    RenderTiles(rules, start, Runs(ws));
    RenderDecodes(rules, start, Runs(ws));
    RunsIntegrate(rules, tier, start, minutes);
    RenderIntegrates(rules, start, Runs(ws));
    RoundHourIsNearest(RateMinutes(rules, tier, start, minutes));
  }

  lemma {:induction false} AppendCounts(rs: seq<Run>, w: Option<nat>)
    ensures TotalCount(Append(rs, w)) == TotalCount(rs) + 1
  {
    hide TotalCount;
    var last := |rs| - 1;
    if last >= 0 && rs[last].winner == w {
      assert rs == rs[..last] + [rs[last]];
      OneRunMore(rs[..last], rs[last]);
      OneRunMore(rs[..last], Run(w, rs[last].count + 1));
    } else {
      OneRunMore(rs, Run(w, 1));
    }
  }

  lemma {:induction false} OneRunMore(rs: seq<Run>, r: Run)
    ensures TotalCount(rs + [r]) == TotalCount(rs) + r.count
  {
    assert (rs + [r])[..|rs|] == rs;
  }

  /** The run being counted: its winner, its length so far and its first instant. */
  datatype Current = Current(winner: Option<nat>, count: int, from: int)

  /** All runs but the last are flushed, and `current` is the last one. */
  ghost predicate Counting(rules: seq<Rule>, start: int, rs: seq<Run>, current: Option<Current>,
                           breakdown: seq<Segment>, rateMinutes: int) {
    if |rs| == 0 then current.None? && breakdown == [] && rateMinutes == 0
    else
      var front, last := rs[..|rs| - 1], rs[|rs| - 1];
      && current == Some(Current(last.winner, last.count, start + TotalCount(front) * MINUTE_MS))
      && breakdown == Render(rules, start, front)
      && rateMinutes == RunRateMinutes(rules, front)
  }

  lemma {:induction false} CountLonger(rules: seq<Rule>, start: int, rs: seq<Run>, c: Current, breakdown: seq<Segment>, rateMinutes: int)
    requires Counting(rules, start, rs, Some(c), breakdown, rateMinutes)
    ensures Counting(rules, start, Append(rs, c.winner), Some(c.(count := c.count + 1)), breakdown, rateMinutes)
  {
    assert Append(rs, c.winner)[..|rs| - 1] == rs[..|rs| - 1];
  }

  lemma {:induction false} CountNew(rules: seq<Rule>, start: int, rs: seq<Run>, w: Option<nat>)
    requires |rs| > 0 ==> rs[|rs| - 1].winner != w
    ensures Counting(rules, start, Append(rs, w), Some(Current(w, 1, start + TotalCount(rs) * MINUTE_MS)),
                     Render(rules, start, rs), RunRateMinutes(rules, rs))
  {
    assert Append(rs, w)[..|rs|] == rs;
  }

  method Flush(rules: seq<Rule>, current: Option<Current>, breakdown: seq<Segment>, rateMinutes: int,
               ghost start: int, ghost rs: seq<Run>)
    returns (segments: seq<Segment>, total: int)
    requires Counting(rules, start, rs, current, breakdown, rateMinutes)
    ensures segments == Render(rules, start, rs) && total == RunRateMinutes(rules, rs)
  {
    if current.None? { return breakdown, rateMinutes; }
    var c := current.value;
    var to := c.from + c.count * MINUTE_MS;
    segments := breakdown + [Segment(c.from, to, RuleLabel(rules, c.winner), RateOf(rules, c.winner), c.count)];
    total := rateMinutes + RateOf(rules, c.winner) * c.count;
  }

  method CountMinute(rules: seq<Rule>, winner: Option<nat>, t: int, current: Option<Current>,
                     breakdown: seq<Segment>, rateMinutes: int, ghost start: int, ghost rs: seq<Run>)
    returns (c: Option<Current>, segments: seq<Segment>, total: int)
    requires Counting(rules, start, rs, current, breakdown, rateMinutes)
    requires t == start + TotalCount(rs) * MINUTE_MS
    ensures Counting(rules, start, Append(rs, winner), c, segments, total)
  {
    if current.Some? && current.value.winner == winner {
      CountLonger(rules, start, rs, current.value, breakdown, rateMinutes);
      c := Some(current.value.(count := current.value.count + 1));
      segments, total := breakdown, rateMinutes;
    } else {
      segments, total := Flush(rules, current, breakdown, rateMinutes, start, rs);
      c := Some(Current(winner, 1, t));
      CountNew(rules, start, rs, winner);
    }
  }

  method WinnerAt(rules: seq<Rule>, tier: Option<nat>, start: int, i: int) returns (t: int, winner: Option<nat>)
    ensures t == start + i * MINUTE_MS && winner == MinuteWinner(rules, tier, start, i)
  {
    t := start + i * MINUTE_MS;
    winner := PickWinner(rules, tier, DayOfWeek(t), MinuteOfDay(t));
    WinnerUnique(rules, tier, DayOfWeek(t), MinuteOfDay(t), winner);
  }

  lemma {:induction false} NothingCounted(rules: seq<Rule>, start: int, tier: Option<nat>)
    ensures Runs(Winners(rules, tier, start, 0)) == []
    ensures Counting(rules, start, [], None, [], 0)
  {
  }

  method CountAll(rules: seq<Rule>, start: int, minutes: int, tier: Option<nat>)
    returns (current: Option<Current>, breakdown: seq<Segment>, rateMinutes: int)
    ensures var n := if minutes < 0 then 0 else minutes;
            Counting(rules, start, Runs(Winners(rules, tier, start, n)), current, breakdown, rateMinutes)
  {
    hide Append, MinuteWinner, Winners;
    current, breakdown, rateMinutes := None, [], 0;
    NothingCounted(rules, start, tier);
    ghost var rs: seq<Run> := [];
    var i := 0;
    while i < minutes
      invariant 0 <= i && i <= if minutes < 0 then 0 else minutes
      invariant rs == Runs(Winners(rules, tier, start, i)) && TotalCount(rs) == i
      invariant Counting(rules, start, rs, current, breakdown, rateMinutes)
    {
      var t, winner := WinnerAt(rules, tier, start, i);
      current, breakdown, rateMinutes := CountMinute(rules, winner, t, current, breakdown, rateMinutes, start, rs);
      RunsOfWinnersStep(rules, tier, start, i);
      AppendCounts(rs, winner);
      rs := Append(rs, winner);
      i := i + 1;
    }
  }

  /** The scan of `pricing.ts` computes exactly the price of the specification. */
  method ComputePrice(rules: seq<Rule>, start: int, minutes: int, tier: Option<nat>) returns (r: PriceResult)
    ensures r == Price(rules, start, minutes, tier)
  {
    var current, breakdown, rateMinutes := CountAll(rules, start, minutes, tier);
    ghost var n := if minutes < 0 then 0 else minutes;
    breakdown, rateMinutes := Flush(rules, current, breakdown, rateMinutes, start, Runs(Winners(rules, tier, start, n)));
    RunsIntegrate(rules, tier, start, n);
    r := PriceResult(RoundHour(rateMinutes), breakdown);
  }

  // ---- Pricing arithmetic ------------------------------------------------------

  lemma {:induction false} MinuteWinnerShift(rules: seq<Rule>, tier: Option<nat>, start: int, a: int, i: int)
    ensures MinuteWinner(rules, tier, start, a + i) == MinuteWinner(rules, tier, start + a * MINUTE_MS, i)
  {
    hide Winner, DayOfWeek, MinuteOfDay;
  }

  /** Rate-minutes are additive when the interval is split. */
  lemma {:induction false} RateMinutesSplit(rules: seq<Rule>, tier: Option<nat>, start: int, a: nat, b: nat)
    ensures RateMinutes(rules, tier, start, a + b)
         == RateMinutes(rules, tier, start, a) + RateMinutes(rules, tier, start + a * MINUTE_MS, b)
    decreases b
  {
    hide MinuteWinner;
    if b > 0 {
      RateMinutesSplit(rules, tier, start, a, b - 1);
      MinuteWinnerShift(rules, tier, start, a, b - 1);
    }
  }

  function Amount(rules: seq<Rule>, tier: Option<nat>, start: int, n: nat): int {
    RoundHour(RateMinutes(rules, tier, start, n))
  }

  /** The price of a whole differs from the sum of its parts by at most one minor unit, and
      60 times the price of an extension is within 60 of the rate-minutes it adds. */
  lemma {:induction false} SplitPriceIsWithinOne(rules: seq<Rule>, tier: Option<nat>, start: int, a: nat, b: nat)
    ensures var whole, first := Amount(rules, tier, start, a + b), Amount(rules, tier, start, a);
            && -1 <= whole - (first + Amount(rules, tier, start + a * MINUTE_MS, b)) <= 1
            && -60 < 60 * (whole - first) - RateMinutes(rules, tier, start + a * MINUTE_MS, b) < 60
  {
    RateMinutesSplit(rules, tier, start, a, b);
    RoundHourIsNearest(RateMinutes(rules, tier, start, a));
    RoundHourIsNearest(RateMinutes(rules, tier, start, a + b));
    RoundHourIsNearest(RateMinutes(rules, tier, start + a * MINUTE_MS, b));
  }

  /** Lengthening an interval leaves the amount as it was exactly if the added rate-minutes stay
      within the same rounding step. */
  lemma {:induction false} LongerIsFreeExactly(rules: seq<Rule>, tier: Option<nat>, start: int, a: nat, b: nat)
    ensures Amount(rules, tier, start, a + b) == Amount(rules, tier, start, a) <==>
            0 <= (RateMinutes(rules, tier, start, a) + 30) % 60 + RateMinutes(rules, tier, start + a * MINUTE_MS, b) < 60
  {
    hide RateMinutes;
    RateMinutesSplit(rules, tier, start, a, b);
    var x, y := RateMinutes(rules, tier, start, a) + 30, RateMinutes(rules, tier, start + a * MINUTE_MS, b);
    assert x == 60 * (x / 60) + x % 60;
    assert (x + y) / 60 == x / 60 <==> 0 <= x % 60 + y < 60;
  }

  lemma {:induction false} RateMinutesNonNegative(rules: seq<Rule>, tier: Option<nat>, start: int, n: nat)
    requires forall r :: r in rules ==> r.rate >= 0
    ensures RateMinutes(rules, tier, start, n) >= 0
  {
    hide MinuteWinner;
    if n > 0 {
      RateMinutesNonNegative(rules, tier, start, n - 1);
    }
  }

  /** With non-negative rates a longer session never costs less. */
  lemma {:induction false} AmountMonotone(rules: seq<Rule>, tier: Option<nat>, start: int, a: nat, b: nat)
    requires a <= b
    requires forall r :: r in rules ==> r.rate >= 0
    ensures 0 <= Amount(rules, tier, start, a) <= Amount(rules, tier, start, b)
  {
    hide MinuteWinner;
    RateMinutesSplit(rules, tier, start, a, b - a);
    RateMinutesNonNegative(rules, tier, start, a);
    RateMinutesNonNegative(rules, tier, start + a * MINUTE_MS, b - a);
  }

  /** Rules are loaded in no particular order; the amount does not depend on it. */
  lemma {:induction false} AmountIgnoresRuleOrder(
    rules: seq<Rule>, others: seq<Rule>, tier: Option<nat>, start: int, n: nat)
    requires forall r :: r in rules <==> r in others
    ensures RateMinutes(rules, tier, start, n) == RateMinutes(others, tier, start, n)
    ensures Amount(rules, tier, start, n) == Amount(others, tier, start, n)
  {
    hide Winner, DayOfWeek, MinuteOfDay;
    if n > 0 {
      AmountIgnoresRuleOrder(rules, others, tier, start, n - 1);
      var t := start + (n - 1) * MINUTE_MS;
      WinningRateIgnoresOrder(rules, others, tier, DayOfWeek(t), MinuteOfDay(t));
    }
  }

  lemma {:induction false} PriceIgnoresRuleOrder(
    rules: seq<Rule>, others: seq<Rule>, start: int, minutes: int, tier: Option<nat>)
    requires forall r :: r in rules <==> r in others
    ensures Price(rules, start, minutes, tier).amount == Price(others, start, minutes, tier).amount
  {
    AmountIgnoresRuleOrder(rules, others, tier, start, if minutes < 0 then 0 else minutes);
  }

  /** A rule for all days, all hours and all tiers. */
  function FlatRule(rate: int): Rule {
    Rule(None, None, None, [0, 1, 2, 3, 4, 5, 6], 0, 0, rate, 0, true)
  }

  /** The first rule is flat, and no other one has a higher priority or rate. */
  predicate FlatFirst(rules: seq<Rule>, rate: int) {
    && |rules| > 0 && rules[0].(id := None) == FlatRule(rate)
    && forall i :: 0 <= i < |rules| ==> rules[i].priority <= 0 && rules[i].rate <= rate
  }

  lemma {:induction false} FlatRuleWins(rules: seq<Rule>, rate: int, tier: Option<nat>, t: int)
    requires FlatFirst(rules, rate)
    ensures Winner(rules, tier, DayOfWeek(t), MinuteOfDay(t)) == Some(0)
  {
    assert rules[0].days[DayOfWeek(t)] == DayOfWeek(t);
    WinnerUnique(rules, tier, DayOfWeek(t), MinuteOfDay(t), Some(0));
  }

  lemma {:induction false} FlatRateMinutes(rules: seq<Rule>, rate: int, tier: Option<nat>, start: int, n: nat)
    requires FlatFirst(rules, rate)
    ensures RateMinutes(rules, tier, start, n) == rate * n
  {
    if n > 0 {
      FlatRateMinutes(rules, rate, tier, start, n - 1);
      FlatRuleWins(rules, rate, tier, start + (n - 1) * MINUTE_MS);
      assert MinuteWinner(rules, tier, start, n - 1) == Some(0);
      hide MinuteWinner;
      OneMinuteMore(rate, n - 1);
    }
  }

  /** With one flat rule, n minutes cost n sixtieths of its rate. */
  lemma {:induction false} FlatPrice(rate: int, tier: Option<nat>, start: int, n: nat)
    ensures Price([FlatRule(rate)], start, n, tier).amount == RoundHour(rate * n)
  {
    hide RateMinutes, Render, Winners, Runs;
    FlatRateMinutes([FlatRule(rate)], rate, tier, start, n);
  }

  const WEEK_MS := 7 * DAY_MS

  lemma {:induction false} ClockIsWeekly(t: int, weeks: int)
    ensures DayOfWeek(t + weeks * WEEK_MS) == DayOfWeek(t)
    ensures MinuteOfDay(t + weeks * WEEK_MS) == MinuteOfDay(t)
  {
    var u := t + weeks * WEEK_MS;
    var q := 7 * weeks;
    assert u == t + q * DAY_MS;
    assert u / DAY_MS == t / DAY_MS + q && u % DAY_MS == t % DAY_MS by {
      var d := t / DAY_MS;
      assert t == d * DAY_MS + t % DAY_MS;
      assert u == (d + q) * DAY_MS + t % DAY_MS;
    }
    var d := t / DAY_MS + 4;
    assert d == (d / 7) * 7 + d % 7;
    assert d + q == (d / 7 + weeks) * 7 + d % 7;
  }

  /** Prices repeat weekly. */
  lemma {:induction false} AmountIsWeekly(
    rules: seq<Rule>, tier: Option<nat>, start: int, n: nat, weeks: int)
    ensures RateMinutes(rules, tier, start + weeks * WEEK_MS, n) == RateMinutes(rules, tier, start, n)
    ensures Amount(rules, tier, start + weeks * WEEK_MS, n) == Amount(rules, tier, start, n)
  {
    hide Winner, DayOfWeek, MinuteOfDay;
    if n > 0 {
      AmountIsWeekly(rules, tier, start, n - 1, weeks);
      ClockIsWeekly(start + (n - 1) * MINUTE_MS, weeks);
      assert start + weeks * WEEK_MS + (n - 1) * MINUTE_MS == start + (n - 1) * MINUTE_MS + weeks * WEEK_MS;
    }
  }
}
