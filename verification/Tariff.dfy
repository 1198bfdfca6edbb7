/** What a minute costs, told from the calendar, the clock on the wall and the rules alone. */
module Tariff {
  import opened Domain
  import opened Pricing

  // ---- The UTC calendar --------------------------------------------------------

  /** Midnight at the beginning of a day; day 0 is 1 January 1970. */
  function Midnight(day: int): int {
    86_400_000 * day
  }

  /** Instant `t` lies in minute `m` of the day. */
  predicate At(t: int, day: int, m: int) {
    0 <= m < 1440 && Midnight(day) + 60_000 * m <= t < Midnight(day) + 60_000 * (m + 1)
  }

  /** The epoch was a Thursday; the weekday stays the same from midnight to midnight and then moves
      on by one; the minute of the day counts the whole minutes since midnight. */
  lemma {:induction false} ClockFollowsCalendar(t: int, day: int)
    requires Midnight(day) <= t < Midnight(day + 1)
    ensures DayOfWeek(Midnight(0)) == 4
    ensures DayOfWeek(t) == DayOfWeek(Midnight(day))
    ensures DayOfWeek(Midnight(day + 1)) == if DayOfWeek(t) == 6 then 0 else DayOfWeek(t) + 1
    ensures At(t, day, MinuteOfDay(t))
  {
    assert t / DAY_MS == day && Midnight(day) / DAY_MS == day && Midnight(day + 1) / DAY_MS == day + 1;
    assert t % DAY_MS == t - Midnight(day);
  }

  /** 1 January 2024 was a Monday. */
  lemma {:induction false} NewYear2024()
    ensures At(1_704_067_200_000, 19_723, 0) && DayOfWeek(1_704_067_200_000) == 1
  {
  }

  /** There is one reading of the clock. */
  lemma {:induction false} ReadsAt(t: int, day: int, m: int)
    requires At(t, day, m)
    ensures DayOfWeek(t) == (day + 4) % 7 && MinuteOfDay(t) == m
  {
    assert t / DAY_MS == day && t % DAY_MS == t - Midnight(day);
  }

  // ---- Which rules apply -------------------------------------------------------

  /** The rule is in force, for this tier, on this day's weekday, at this time of day. */
  predicate Applies(rule: Rule, tier: Option<nat>, day: int, m: int) {
    && rule.active
    && (rule.tier.Some? ==> tier.Some? && tier.value == rule.tier.value)
    && (exists k :: 0 <= k < |rule.days| && rule.days[k] == (day + 4) % 7)
    && if rule.startMin < rule.endMin then rule.startMin <= m && m < rule.endMin
       else m >= rule.startMin || m < rule.endMin
  }

  /** `a` is dearer or more important than `b`. */
  predicate Outranks(a: Rule, b: Rule) {
    b.priority < a.priority || (b.priority == a.priority && b.rate < a.rate)
  }

  lemma {:induction false} AppliesExactly(rule: Rule, tier: Option<nat>, t: int, day: int, m: int)
    requires Clocked(rule) && At(t, day, m)
    ensures Eligible(rule, tier, DayOfWeek(t), MinuteOfDay(t)) <==> Applies(rule, tier, day, m)
  {
    ReadsAt(t, day, m);
  }

  /** Of the rules that apply in a minute, the first one that no other outranks prices it, under its
      name or else its id; without any, the minute is free and without a label. */
  lemma {:induction false} MinuteCost(rules: seq<Rule>, tier: Option<nat>, start: int, i: nat, day: int, m: int)
    requires At(start + 60_000 * i, day, m)
    requires forall j :: 0 <= j < |rules| ==> Clocked(rules[j])
    ensures var w := MinuteWinner(rules, tier, start, i);
            if w.None? then
              && (forall j :: 0 <= j < |rules| ==> !Applies(rules[j], tier, day, m))
              && RateOf(rules, w) == 0 && RuleLabel(rules, w) == None
            else
              && w.value < |rules| && Applies(rules[w.value], tier, day, m)
              && (forall j :: 0 <= j < |rules| && Applies(rules[j], tier, day, m) ==> !Outranks(rules[j], rules[w.value]))
              && (forall j :: 0 <= j < w.value && Applies(rules[j], tier, day, m) ==> Outranks(rules[w.value], rules[j]))
              && RateOf(rules, w) == rules[w.value].rate
              && (rules[w.value].name.Some? ==> RuleLabel(rules, w) == rules[w.value].name)
              && (rules[w.value].name.None? ==> RuleLabel(rules, w) == rules[w.value].id)
  {
    hide Applies, Eligible;
    var t := start + 60_000 * i;
    forall j | 0 <= j < |rules|
      ensures Eligible(rules[j], tier, DayOfWeek(t), MinuteOfDay(t)) <==> Applies(rules[j], tier, day, m)
    {
      AppliesExactly(rules[j], tier, t, day, m);
    }
    assert IsWinner(rules, |rules|, tier, DayOfWeek(t), MinuteOfDay(t), MinuteWinner(rules, tier, start, i));
  }

  /** The breakdown, read back, says the same of every minute. */
  lemma {:induction false} BillNamesMinute(rules: seq<Rule>, tier: Option<nat>, start: int, n: nat, i: nat, day: int, m: int)
    requires i < n && At(start + 60_000 * i, day, m)
    requires forall j :: 0 <= j < |rules| ==> Clocked(rules[j])
    ensures var minutes := Decode(Price(rules, start, n, tier).breakdown);
            && |minutes| == n
            && ((minutes[i] == MinutePrice(None, 0) && forall j :: 0 <= j < |rules| ==> !Applies(rules[j], tier, day, m))
                || exists w :: 0 <= w < |rules| && Applies(rules[w], tier, day, m)
                     && (forall j :: 0 <= j < |rules| && Applies(rules[j], tier, day, m) ==> !Outranks(rules[j], rules[w]))
                     && minutes[i] == MinutePrice(if rules[w].name.Some? then rules[w].name else rules[w].id, rules[w].rate))
  {
    hide Applies, Eligible, Outranks, Runs, Expand, Render, Decode, RateMinutes, MinuteWinner;
    BreakdownExplainsAmount(rules, start, n, tier);
    MinuteCost(rules, tier, start, i, day, m);
    assert Winners(rules, tier, start, n)[i] == MinuteWinner(rules, tier, start, i);
  }

  // ---- One rule ----------------------------------------------------------------

  ghost predicate AppliesAt(rule: Rule, tier: Option<nat>, t: int) {
    exists day, m :: At(t, day, m) && Applies(rule, tier, day, m)
  }

  /** How many of the first `n` minutes the rule applies in. */
  ghost function Charged(rule: Rule, tier: Option<nat>, start: int, n: nat): nat {
    if n == 0 then 0
    else Charged(rule, tier, start, n - 1) + if AppliesAt(rule, tier, start + 60_000 * (n - 1)) then 1 else 0
  }

  lemma {:induction false} AppliesAtExactly(rule: Rule, tier: Option<nat>, t: int)
    requires Clocked(rule)
    ensures AppliesAt(rule, tier, t) <==> Eligible(rule, tier, DayOfWeek(t), MinuteOfDay(t))
  {
    hide Eligible, Applies;
    var day := t / DAY_MS;
    ClockFollowsCalendar(t, day);
    AppliesExactly(rule, tier, t, day, MinuteOfDay(t));
    if AppliesAt(rule, tier, t) {
      var d, m :| At(t, d, m) && Applies(rule, tier, d, m);
      AppliesExactly(rule, tier, t, d, m);
    }
  }

  lemma {:induction false} OneMinuteOfRule(rule: Rule, tier: Option<nat>, start: int, i: nat)
    requires Clocked(rule)
    ensures RateOf([rule], MinuteWinner([rule], tier, start, i)) == if AppliesAt(rule, tier, start + 60_000 * i) then rule.rate else 0
  {
    hide Eligible, AppliesAt;
    var t := start + 60_000 * i;
    AppliesAtExactly(rule, tier, t);
    var w := MinuteWinner([rule], tier, start, i);
    assert IsWinner([rule], 1, tier, DayOfWeek(t), MinuteOfDay(t), w);
    assert [rule][0] == rule;
  }

  lemma {:induction false} RateMinutesOfRule(rule: Rule, tier: Option<nat>, start: int, n: nat)
    requires Clocked(rule)
    ensures RateMinutes([rule], tier, start, n) == rule.rate * Charged(rule, tier, start, n)
  {
    hide MinuteWinner, RateOf, AppliesAt;
    if n > 0 {
      RateMinutesOfRule(rule, tier, start, n - 1);
      OneMinuteOfRule(rule, tier, start, n - 1);
      OneMinuteMore(rule.rate, Charged(rule, tier, start, n - 1));
    }
  }

  /** With a single rule, exactly the minutes in which it applies cost its rate. */
  lemma {:induction false} OneRulePrice(rule: Rule, tier: Option<nat>, start: int, n: nat)
    requires Clocked(rule)
    ensures -30 < 60 * Price([rule], start, n, tier).amount - rule.rate * Charged(rule, tier, start, n) <= 30
  {
    hide Charged, RateMinutes, Render, Winners, Runs, RoundHour;
    RateMinutesOfRule(rule, tier, start, n);
    RoundHourIsNearest(RateMinutes([rule], tier, start, n));
  }

  lemma {:induction false} ChargedWithinDay(rule: Rule, tier: Option<nat>, day: int, start: int, n: nat)
    requires rule.active && rule.tier.None? && rule.startMin == rule.endMin && Clocked(rule)
    requires Midnight(day) <= start && start + 60_000 * n <= Midnight(day + 1)
    ensures Charged(rule, tier, start, n) == if (day + 4) % 7 in rule.days then n else 0
  {
    if n > 0 {
      hide Applies;
      ChargedWithinDay(rule, tier, day, start, n - 1);
      var t := start + 60_000 * (n - 1);
      ClockFollowsCalendar(t, day);
      ReadsAt(t, day, MinuteOfDay(t));
      AppliesAtExactly(rule, tier, t);
      WindowIsCyclic(rule, MinuteOfDay(t));
    }
  }

  /** A rule for whole days charges for time within a day all or nothing, by the weekday. */
  lemma {:induction false} WeekdayPrice(rule: Rule, tier: Option<nat>, day: int, start: int, n: nat)
    requires rule.active && rule.tier.None? && rule.startMin == rule.endMin && Clocked(rule)
    requires Midnight(day) <= start && start + 60_000 * n <= Midnight(day + 1)
    ensures var due := if (day + 4) % 7 in rule.days then rule.rate * n else 0;
            -30 < 60 * Price([rule], start, n, tier).amount - due <= 30
  {
    hide Charged, Price;
    OneRulePrice(rule, tier, start, n);
    ChargedWithinDay(rule, tier, day, start, n);
  }
}
