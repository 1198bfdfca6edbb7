/** Loading the pricing rules: the query takes at most 200 active rules, in no particular order. */
module Loading {
  import opened Domain
  import opened Sorting
  import opened Pricing

  const LOAD_LIMIT: nat := 200

  /** What the query may return of the cafe's active rules. */
  ghost predicate IsLoad(table: set<Rule>, loaded: seq<Rule>) {
    && AllDistinct(loaded) && (forall r :: r in loaded ==> r in table)
    && |loaded| == if |table| <= LOAD_LIMIT then |table| else LOAD_LIMIT
  }

  /** Every rule has an id, and no two have the same. */
  ghost predicate Keyed(table: set<Rule>) {
    && (forall r :: r in table ==> r.id.Some?)
    && forall a, b :: a in table && b in table && a.id == b.id ==> a == b
  }

  /** How many rules a load leaves out. */
  function Surplus(table: set<Rule>): nat {
    if |table| <= LOAD_LIMIT then 0 else |table| - LOAD_LIMIT
  }

  // ---- What a load may leave out -----------------------------------------------

  lemma {:induction false} MissingAreFew(table: set<Rule>, loaded: seq<Rule>, out: set<Rule>)
    requires IsLoad(table, loaded) && out <= table && forall r :: r in loaded ==> r !in out
    ensures |out| <= Surplus(table)
  {
    var es := Elements(loaded);
    ElementsOfDistinct(loaded);
    SubsetIsSmaller(es + out, table);
    assert es * out == {};
  }

  lemma {:induction false} LoadAvoiding(table: set<Rule>, out: set<Rule>) returns (loaded: seq<Rule>)
    requires out <= table && |out| <= Surplus(table)
    ensures IsLoad(table, loaded) && forall r :: r in loaded ==> r !in out
  {
    assert |table - out| == |table| - |out|;
    loaded := ListOf(table - out, if |table| <= LOAD_LIMIT then |table| else LOAD_LIMIT);
  }

  lemma {:induction false} LoadAvoidingWith(table: set<Rule>, out: set<Rule>, r: Rule) returns (loaded: seq<Rule>)
    requires out <= table && |out| <= Surplus(table) && r in table && r !in out
    ensures IsLoad(table, loaded) && r in loaded && forall x :: x in loaded ==> x !in out
  {
    assert |table - out| == |table| - |out|;
    assert |table - out - {r}| == |table - out| - 1;
    var rest := ListOf(table - out - {r}, (if |table| <= LOAD_LIMIT then |table| else LOAD_LIMIT) - 1);
    loaded := rest + [r];
  }

  // ---- Which rates can win -----------------------------------------------------

  ghost function EligibleRules(table: set<Rule>, tier: Option<nat>, day: int, minuteOfDay: int): set<Rule> {
    set r | r in table && Eligible(r, tier, day, minuteOfDay)
  }

  ghost function Beaters(table: set<Rule>, tier: Option<nat>, day: int, minuteOfDay: int, r: Rule): set<Rule> {
    set b | b in EligibleRules(table, tier, day, minuteOfDay) && Beats(b, r)
  }

  function WinningRate(rules: seq<Rule>, tier: Option<nat>, day: int, minuteOfDay: int): int {
    RateOf(rules, Winner(rules, tier, day, minuteOfDay))
  }

  /** Some load of the table prices the minute at this rate. */
  ghost predicate CanCost(table: set<Rule>, tier: Option<nat>, day: int, minuteOfDay: int, rate: int) {
    exists loaded :: IsLoad(table, loaded) && WinningRate(loaded, tier, day, minuteOfDay) == rate
  }

  lemma {:induction false} UnbeatenWins(rules: seq<Rule>, tier: Option<nat>, day: int, m: int, r: Rule)
    requires r in rules && Eligible(r, tier, day, m)
    requires forall b :: b in rules && Eligible(b, tier, day, m) ==> !Beats(b, r)
    ensures WinningRate(rules, tier, day, m) == r.rate
  {
    hide MatchesMinute;
    var w := Winner(rules, tier, day, m);
    assert IsWinner(rules, |rules|, tier, day, m, w);
    var i :| 0 <= i < |rules| && rules[i] == r;
    if w.Some? {
      assert rules[w.value] in rules;
    }
  }

  lemma {:induction false} NoneWins(rules: seq<Rule>, tier: Option<nat>, day: int, m: int)
    requires forall b :: b in rules ==> !Eligible(b, tier, day, m)
    ensures WinningRate(rules, tier, day, m) == 0
  {
    hide MatchesMinute;
    var w := Winner(rules, tier, day, m);
    assert IsWinner(rules, |rules|, tier, day, m, w);
    assert forall i :: 0 <= i < |rules| ==> rules[i] in rules;
  }

  /** A rate is paid for a minute under some load if and only if an eligible rule with that rate is
      beaten by no more eligible rules than a load leaves out, or no more than that are eligible at
      all and the minute can be free. */
  lemma {:induction false} CanCostExactly(table: set<Rule>, tier: Option<nat>, day: int, m: int, rate: int)
    ensures CanCost(table, tier, day, m, rate) <==>
            (exists r :: r in EligibleRules(table, tier, day, m) && r.rate == rate
                         && |Beaters(table, tier, day, m, r)| <= Surplus(table))
            || (rate == 0 && |EligibleRules(table, tier, day, m)| <= Surplus(table))
  {
    hide Eligible, Beats, Surplus, WinnerAmong, IsLoad, WinningRate;
    if CanCost(table, tier, day, m, rate) {
      var loaded :| IsLoad(table, loaded) && WinningRate(loaded, tier, day, m) == rate;
      CostOfLoad(table, loaded, tier, day, m);
    }
    if r :| r in EligibleRules(table, tier, day, m) && r.rate == rate && |Beaters(table, tier, day, m, r)| <= Surplus(table) {
      LoadWithWinner(table, tier, day, m, r);
    }
    if rate == 0 && |EligibleRules(table, tier, day, m)| <= Surplus(table) {
      LoadWithoutWinner(table, tier, day, m);
    }
  }

  lemma {:induction false} CostOfLoad(table: set<Rule>, loaded: seq<Rule>, tier: Option<nat>, day: int, m: int)
    requires IsLoad(table, loaded)
    ensures var rate := WinningRate(loaded, tier, day, m);
            || (exists r :: r in EligibleRules(table, tier, day, m) && r.rate == rate
                            && |Beaters(table, tier, day, m, r)| <= Surplus(table))
            || (rate == 0 && |EligibleRules(table, tier, day, m)| <= Surplus(table))
  {
    hide MatchesMinute, Surplus;
    var w := Winner(loaded, tier, day, m);
    assert IsWinner(loaded, |loaded|, tier, day, m, w);
    if w.Some? {
      var r := loaded[w.value];
      assert r in loaded;
      MissingAreFew(table, loaded, Beaters(table, tier, day, m, r));
      assert r in EligibleRules(table, tier, day, m);
    } else {
      MissingAreFew(table, loaded, EligibleRules(table, tier, day, m));
    }
  }

  lemma {:induction false} LoadWithWinner(table: set<Rule>, tier: Option<nat>, day: int, m: int, r: Rule)
    requires r in EligibleRules(table, tier, day, m) && |Beaters(table, tier, day, m, r)| <= Surplus(table)
    ensures CanCost(table, tier, day, m, r.rate)
  {
    hide MatchesMinute, Surplus, WinnerAmong;
    var loaded := LoadAvoidingWith(table, Beaters(table, tier, day, m, r), r);
    UnbeatenWins(loaded, tier, day, m, r);
  }

  lemma {:induction false} LoadWithoutWinner(table: set<Rule>, tier: Option<nat>, day: int, m: int)
    requires |EligibleRules(table, tier, day, m)| <= Surplus(table)
    ensures CanCost(table, tier, day, m, 0)
  {
    hide MatchesMinute, Surplus, WinnerAmong;
    var loaded := LoadAvoiding(table, EligibleRules(table, tier, day, m));
    NoneWins(loaded, tier, day, m);
  }

  // ---- When a load decides about a price ---------------------------------------

  /** Each minute has one rate, whichever load is used. */
  ghost predicate MinutesAreCertain(table: set<Rule>, tier: Option<nat>) {
    forall t, x, y ::
      (CanCost(table, tier, DayOfWeek(t), MinuteOfDay(t), x) && CanCost(table, tier, DayOfWeek(t), MinuteOfDay(t), y))
      ==> x == y
  }

  /** Any two loads integrate to the same rate-minutes, over any interval. */
  ghost predicate IntegralsAreCertain(table: set<Rule>, tier: Option<nat>) {
    forall a, b, start, n: nat :: IsLoad(table, a) && IsLoad(table, b) ==>
      RateMinutes(a, tier, start, n) == RateMinutes(b, tier, start, n)
  }

  lemma {:induction false} CertainMinutesAddUp(table: set<Rule>, tier: Option<nat>, a: seq<Rule>, b: seq<Rule>, start: int, n: nat)
    requires MinutesAreCertain(table, tier) && IsLoad(table, a) && IsLoad(table, b)
    ensures RateMinutes(a, tier, start, n) == RateMinutes(b, tier, start, n)
  {
    hide Winner, DayOfWeek, MinuteOfDay, IsLoad;
    if n > 0 {
      CertainMinutesAddUp(table, tier, a, b, start, n - 1);
      var t := start + (n - 1) * MINUTE_MS;
      assert WinningRate(a, tier, DayOfWeek(t), MinuteOfDay(t)) == RateOf(a, MinuteWinner(a, tier, start, n - 1));
      assert WinningRate(b, tier, DayOfWeek(t), MinuteOfDay(t)) == RateOf(b, MinuteWinner(b, tier, start, n - 1));
      assert CanCost(table, tier, DayOfWeek(t), MinuteOfDay(t), WinningRate(a, tier, DayOfWeek(t), MinuteOfDay(t)));
      assert CanCost(table, tier, DayOfWeek(t), MinuteOfDay(t), WinningRate(b, tier, DayOfWeek(t), MinuteOfDay(t)));
    }
  }

  lemma {:induction false} OneMinute(rules: seq<Rule>, tier: Option<nat>, t: int)
    ensures RateMinutes(rules, tier, t, 1) == WinningRate(rules, tier, DayOfWeek(t), MinuteOfDay(t))
  {
    hide Winner, DayOfWeek, MinuteOfDay;
    assert RateMinutes(rules, tier, t, 0) == 0;
    assert t + 0 * MINUTE_MS == t;
  }

  /** For a given table the rate-minutes of every interval are the same under all loads if and only if
      every single minute has one rate that can win. */
  lemma {:induction false} LoadDecidesExactly(table: set<Rule>, tier: Option<nat>)
    ensures IntegralsAreCertain(table, tier) <==> MinutesAreCertain(table, tier)
  {
    hide Winner, DayOfWeek, MinuteOfDay, IsLoad, RateMinutes, WinningRate;
    if MinutesAreCertain(table, tier) {
      forall a, b, start, n: nat | IsLoad(table, a) && IsLoad(table, b)
        ensures RateMinutes(a, tier, start, n) == RateMinutes(b, tier, start, n)
      {
        CertainMinutesAddUp(table, tier, a, b, start, n);
      }
    }
    if IntegralsAreCertain(table, tier) {
      forall t, x, y | CanCost(table, tier, DayOfWeek(t), MinuteOfDay(t), x) && CanCost(table, tier, DayOfWeek(t), MinuteOfDay(t), y)
        ensures x == y
      {
        var a :| IsLoad(table, a) && WinningRate(a, tier, DayOfWeek(t), MinuteOfDay(t)) == x;
        var b :| IsLoad(table, b) && WinningRate(b, tier, DayOfWeek(t), MinuteOfDay(t)) == y;
        OneMinute(a, tier, t);
        OneMinute(b, tier, t);
        assert RateMinutes(a, tier, t, 1) == RateMinutes(b, tier, t, 1);
      }
    }
  }

  // ---- Up to 200 rules ---------------------------------------------------------

  /** Whichever rules the database picks, every session gets the same amount. */
  ghost predicate LoadDoesNotMatter(table: set<Rule>) {
    forall a, b, tier, start, minutes: nat :: IsLoad(table, a) && IsLoad(table, b) ==>
      Amount(a, tier, start, minutes) == Amount(b, tier, start, minutes)
  }

  lemma {:induction false} FullLoad(table: set<Rule>, loaded: seq<Rule>)
    requires IsLoad(table, loaded) && |table| <= LOAD_LIMIT
    ensures forall r :: r in loaded <==> r in table
  {
    forall r | r in table
      ensures r in loaded
    {
      if r !in loaded {
        MissingAreFew(table, loaded, {r});
        assert false;
      }
    }
  }

  lemma {:induction false} SmallLoadDoesNotMatter(table: set<Rule>)
    requires |table| <= LOAD_LIMIT
    ensures LoadDoesNotMatter(table)
  {
    hide Amount;
    forall a, b, tier, start, minutes: nat | IsLoad(table, a) && IsLoad(table, b)
      ensures Amount(a, tier, start, minutes) == Amount(b, tier, start, minutes)
    {
      FullLoad(table, a);
      FullLoad(table, b);
      AmountIgnoresRuleOrder(a, b, tier, start, minutes);
    }
  }

  function FreeRule(i: nat): Rule {
    FlatRule(0).(id := Some(Repeat('0', i)))
  }

  function FreeRules(n: nat): (rules: seq<Rule>)
    ensures |rules| == n && forall i :: 0 <= i < n ==> rules[i] == FreeRule(i)
  {
    seq(n, i requires 0 <= i < n => FreeRule(i))
  }

  function DearRule(): Rule {
    FlatRule(60).(id := Some("1"))
  }

  /** One expensive rule among free ones, all flat. */
  function OneDearRule(n: nat): set<Rule> {
    Elements([DearRule()] + FreeRules(n))
  }

  lemma {:induction false} IdsDiffer(i: nat, j: nat)
    requires i != j
    ensures FreeRule(i).id != FreeRule(j).id
  {
    assert |Repeat('0', i)| != |Repeat('0', j)|;
  }

  lemma {:induction false} DearDiffers(i: nat)
    ensures FreeRule(i).id != DearRule().id
  {
    if i == 1 {
      assert Repeat('0', i)[0] == '0' && "1"[0] == '1';
    } else {
      assert |Repeat('0', i)| == i;
    }
  }

  lemma {:induction false} OneDearIsTable(n: nat)
    ensures AllDistinct([DearRule()] + FreeRules(n)) && |OneDearRule(n)| == n + 1 && Keyed(OneDearRule(n))
  {
    hide FreeRules, Repeat, Elements;
    var rules := [DearRule()] + FreeRules(n);
    forall i, j | 0 <= i < j < |rules|
      ensures rules[i].id != rules[j].id
    {
      if i == 0 {
        DearDiffers(j - 1);
      } else {
        IdsDiffer(i - 1, j - 1);
      }
    }
    ElementsOfDistinct(rules);
    assert forall r :: r in rules ==> r.id.Some?;
  }

  /** A load with the expensive rule, and one without it. */
  lemma {:induction false} TwoLoads(n: nat)
    requires n >= LOAD_LIMIT
    ensures IsLoad(OneDearRule(n), [DearRule()] + FreeRules(LOAD_LIMIT - 1)) && IsLoad(OneDearRule(n), FreeRules(LOAD_LIMIT))
  {
    OneDearIsTable(n);
    hide Repeat, Elements, FreeRule, DearRule;
    var rules := [DearRule()] + FreeRules(n);
    var a, b := [DearRule()] + FreeRules(LOAD_LIMIT - 1), FreeRules(LOAD_LIMIT);
    assert a == rules[..LOAD_LIMIT] && b == rules[1..LOAD_LIMIT + 1];
  }

  lemma {:induction false} LoadAmounts()
    ensures Amount([DearRule()] + FreeRules(LOAD_LIMIT - 1), None, 0, 60) == 60
    ensures Amount(FreeRules(LOAD_LIMIT), None, 0, 60) == 0
  {
    hide Repeat, RateMinutes, FreeRules;
    FlatRateMinutes([DearRule()] + FreeRules(LOAD_LIMIT - 1), 60, None, 0, 60);
    FlatRateMinutes(FreeRules(LOAD_LIMIT), 0, None, 0, 60);
  }

  lemma {:induction false} DifferentLoadsMatter(table: set<Rule>, a: seq<Rule>, b: seq<Rule>, minutes: nat)
    requires IsLoad(table, a) && IsLoad(table, b) && Amount(a, None, 0, minutes) != Amount(b, None, 0, minutes)
    ensures !LoadDoesNotMatter(table)
  {
    hide IsLoad, Amount;
  }

  /** For every size above 200 there is a table that two loads price differently. */
  lemma {:induction false} LargeLoadMatters(n: nat)
    requires n > LOAD_LIMIT
    ensures |OneDearRule(n - 1)| == n && Keyed(OneDearRule(n - 1)) && !LoadDoesNotMatter(OneDearRule(n - 1))
  {
    hide IsLoad, Amount, OneDearRule, Keyed, AllDistinct, FreeRules;
    OneDearIsTable(n - 1);
    TwoLoads(n - 1);
    LoadAmounts();
    DifferentLoadsMatter(OneDearRule(n - 1), [DearRule()] + FreeRules(LOAD_LIMIT - 1), FreeRules(LOAD_LIMIT), 60);
  }

  /** For all tables of n rules it does not matter which rules are loaded, if and only if n is at most
      200. */
  lemma {:induction false} LoadMattersExactly(n: nat)
    ensures (forall table :: |table| == n && Keyed(table) ==> LoadDoesNotMatter(table)) <==> n <= 200
  {
    hide LoadDoesNotMatter, OneDearRule, Keyed;
    if n <= LOAD_LIMIT {
      forall table: set<Rule> | |table| == n && Keyed(table)
        ensures LoadDoesNotMatter(table)
      {
        SmallLoadDoesNotMatter(table);
      }
    } else {
      LargeLoadMatters(n);
    }
  }
}
