/** The API budget tracker: a log of model calls with per-day and per-month
    totals, the limit test that gates every call, and the dashboard view of
    it. The clock reading is a parameter: the call's timestamp and the day
    and month keys it formats to. Costs are exact reals. */
module Budget {
  import opened Common

  datatype BudgetConfig = BudgetConfig(
    costPer1kInput: real,
    costPer1kOutput: real,
    maxCallsPerDay: int,
    dailyLimit: real,
    monthlyLimit: real)

  datatype CallRecord = CallRecord(timestamp: int, inputTokens: nat, outputTokens: nat, cost: real)

  /** One bucket of `daily_totals` or `monthly_totals`. */
  datatype Totals = Totals(calls: int, cost: real, tokens: int)

  const Zero := Totals(0, 0.0, 0)

  /** The whole `usage` record. */
  datatype Usage = Usage(calls: seq<CallRecord>, daily: map<string, Totals>, monthly: map<string, Totals>)

  const EmptyUsage := Usage([], map[], map[])

  /** `_estimate_cost`: the price of the input and output tokens at the
      configured rates per thousand. */
  function EstimateCost(c: BudgetConfig, inputTokens: nat, outputTokens: nat): (cost: real)
    ensures cost * 1000.0
         == inputTokens as real * c.costPer1kInput + outputTokens as real * c.costPer1kOutput
    ensures c.costPer1kInput >= 0.0 && c.costPer1kOutput >= 0.0 ==> cost >= 0.0
  {
    (inputTokens as real / 1000.0) * c.costPer1kInput
      + (outputTokens as real / 1000.0) * c.costPer1kOutput
  }

  /** `totals.get(key, zeros)`. */
  function BucketOr(m: map<string, Totals>, key: string): (t: Totals)
    ensures key !in m ==> t == Zero
  {
    if key in m then m[key] else Zero
  }

  /** The bucket for `key`, created at zero if absent, counting one more
      call with its tokens and cost. */
  function Bump(m: map<string, Totals>, key: string, tokens: int, cost: real): map<string, Totals> {
    var b := BucketOr(m, key);
    m[key := Totals(b.calls + 1, b.cost + cost, b.tokens + tokens)]
  }

  /** Bumping a bucket adds one call, its tokens and its cost to that bucket
      (a missing one counting as zero) and leaves every other bucket as it
      was. */
  lemma BumpAddsOneCall(m: map<string, Totals>, key: string, tokens: int, cost: real)
    ensures var r := Bump(m, key, tokens, cost);
      && r.Keys == m.Keys + {key}
      && BucketOr(r, key) == Totals(BucketOr(m, key).calls + 1, BucketOr(m, key).cost + cost,
                                    BucketOr(m, key).tokens + tokens)
      && forall k :: k != key ==> BucketOr(r, k) == BucketOr(m, k)
  {
  }

  /** The usage after `log_call`: one record appended, and the day and month
      buckets bumped. */
  function Logged(c: BudgetConfig, u: Usage, inputTokens: nat, outputTokens: nat, now: int,
                  day: string, month: string): Usage
  {
    var cost := EstimateCost(c, inputTokens, outputTokens);
    Usage(u.calls + [CallRecord(now, inputTokens, outputTokens, cost)],
          Bump(u.daily, day, inputTokens + outputTokens, cost),
          Bump(u.monthly, month, inputTokens + outputTokens, cost))
  }

  /** Logging a call appends its record priced at the configured rates,
      counts one more call in its day and its month, and leaves every other
      day and month as it was. */
  lemma LoggedCountsOneCall(c: BudgetConfig, u: Usage, inputTokens: nat, outputTokens: nat, now: int,
                            day: string, month: string)
    ensures var r := Logged(c, u, inputTokens, outputTokens, now, day, month);
      && r.calls == u.calls + [CallRecord(now, inputTokens, outputTokens,
                                          EstimateCost(c, inputTokens, outputTokens))]
      && BucketOr(r.daily, day).calls == BucketOr(u.daily, day).calls + 1
      && BucketOr(r.monthly, month).calls == BucketOr(u.monthly, month).calls + 1
      && BucketOr(r.daily, day).cost == BucketOr(u.daily, day).cost + EstimateCost(c, inputTokens, outputTokens)
      && BucketOr(r.monthly, month).cost
         == BucketOr(u.monthly, month).cost + EstimateCost(c, inputTokens, outputTokens)
      && (forall k :: k != day ==> BucketOr(r.daily, k) == BucketOr(u.daily, k))
      && (forall k :: k != month ==> BucketOr(r.monthly, k) == BucketOr(u.monthly, k))
  {
    var cost := EstimateCost(c, inputTokens, outputTokens);
    BumpAddsOneCall(u.daily, day, inputTokens + outputTokens, cost);
    BumpAddsOneCall(u.monthly, month, inputTokens + outputTokens, cost);
  }

  /** `can_make_call` for the given day and month: refused exactly when the
      day's calls reached the cap, or the day's or the month's cost reached
      its limit, missing buckets counting as zero. */
  predicate CanCall(c: BudgetConfig, u: Usage, day: string, month: string) {
    var d := BucketOr(u.daily, day);
    var m := BucketOr(u.monthly, month);
    !(d.calls >= c.maxCallsPerDay || d.cost >= c.dailyLimit || m.cost >= c.monthlyLimit)
  }

  /** The token counts of one logged call. */
  datatype Tokens = Tokens(input: nat, output: nat)

  /** Logging a series of calls within one day and month. */
  function LogAll(c: BudgetConfig, u: Usage, calls: seq<Tokens>, now: int, day: string,
                  month: string): Usage
    decreases |calls|
  {
    if calls == [] then u
    else LogAll(c, Logged(c, u, calls[0].input, calls[0].output, now, day, month),
                calls[1..], now, day, month)
  }

  predicate NonNegativeRates(c: BudgetConfig) {
    c.costPer1kInput >= 0.0 && c.costPer1kOutput >= 0.0
  }

  /** Logging calls on a day raises that day's call count by their number
      and never lowers a day's or a month's cost. */
  lemma {:induction false} LogAllCounts(c: BudgetConfig, u: Usage, calls: seq<Tokens>, now: int,
                                        day: string, month: string)
    requires NonNegativeRates(c)
    ensures var r := LogAll(c, u, calls, now, day, month);
      && BucketOr(r.daily, day).calls == BucketOr(u.daily, day).calls + |calls|
      && BucketOr(r.daily, day).cost >= BucketOr(u.daily, day).cost
      && BucketOr(r.monthly, month).cost >= BucketOr(u.monthly, month).cost
      && |r.calls| == |u.calls| + |calls|
    decreases |calls|
  {
    if calls != [] {
      var v := Logged(c, u, calls[0].input, calls[0].output, now, day, month);
      LoggedCountsOneCall(c, u, calls[0].input, calls[0].output, now, day, month);
      LogAllCounts(c, v, calls[1..], now, day, month);
    }
  }

  /** Once `max_calls_per_day` calls have been logged on a day, starting from
      that day's bucket at any non-negative count, calls stay refused for the
      rest of the day however many more are logged. */
  lemma CallCapHoldsForTheDay(c: BudgetConfig, u: Usage, calls: seq<Tokens>, more: seq<Tokens>,
                              now: int, later: int, day: string, month: string)
    requires NonNegativeRates(c)
    requires BucketOr(u.daily, day).calls >= 0
    requires |calls| >= c.maxCallsPerDay
    ensures !CanCall(c, LogAll(c, u, calls, now, day, month), day, month)
    ensures !CanCall(c, LogAll(c, LogAll(c, u, calls, now, day, month), more, later, day, month),
                     day, month)
  {
    LogAllCounts(c, u, calls, now, day, month);
    LogAllCounts(c, LogAll(c, u, calls, now, day, month), more, later, day, month);
  }

  /** A refusal for cost stays a refusal for the rest of the day: logging
      more calls never lowers a cost. */
  lemma RefusalIsStable(c: BudgetConfig, u: Usage, more: seq<Tokens>, now: int,
                        day: string, month: string)
    requires NonNegativeRates(c)
    requires BucketOr(u.daily, day).calls >= 0
    requires !CanCall(c, u, day, month)
    ensures !CanCall(c, LogAll(c, u, more, now, day, month), day, month)
  {
    LogAllCounts(c, u, more, now, day, month);
  }

  // ---------------------------------------------------------------------------
  // The dashboard

  /** The percent shown on the dashboard: the share of the limit used, capped
      at 100, and 0 when no positive limit is set. */
  function Percent(cost: real, limit: real): (p: real)
    ensures limit <= 0.0 ==> p == 0.0
    ensures p <= 100.0
    ensures limit > 0.0 && cost >= 0.0 ==> p >= 0.0
    ensures limit > 0.0 && cost <= limit ==> p == cost / limit * 100.0
    ensures limit > 0.0 && cost >= limit ==> p == 100.0
  {
    if limit > 0.0 then
      var x := cost / limit * 100.0;
      ShareOfLimit(cost, limit);
      if x <= 100.0 then x else 100.0
    else 0.0
  }

  /** The share of a positive limit reaches 100 percent exactly when the cost
      reaches the limit. */
  lemma ShareOfLimit(cost: real, limit: real)
    requires limit > 0.0
    ensures cost / limit * 100.0 >= 100.0 <==> cost >= limit
    ensures cost >= 0.0 ==> cost / limit * 100.0 >= 0.0
  {
    assert cost / limit * limit == cost;
  }

  datatype DailyView = DailyView(cost: real, limit: real, percent: real, calls: int,
                                 maxCalls: int, tokens: int)
  datatype MonthlyView = MonthlyView(cost: real, limit: real, percent: real, calls: int,
                                     tokens: int)
  datatype BudgetDashboard = BudgetDashboard(daily: DailyView, monthly: MonthlyView,
                                             canCall: bool, recentCalls: seq<CallRecord>)

  // ---------------------------------------------------------------------------
  // The tracker

  class BudgetTracker {
    const config: BudgetConfig
    var calls: seq<CallRecord>
    var dailyTotals: map<string, Totals>
    var monthlyTotals: map<string, Totals>

    function Snapshot(): Usage
      reads this
    {
      Usage(calls, dailyTotals, monthlyTotals)
    }

    /** A tracker starts from the usage loaded from disk, or from an empty
        usage when there is none. */
    constructor (config: BudgetConfig, loaded: Option<Usage>)
      ensures this.config == config
      ensures Snapshot() == loaded.GetOr(EmptyUsage)
    {
      this.config := config;
      var u := loaded.GetOr(EmptyUsage);
      calls := u.calls;
      dailyTotals := u.daily;
      monthlyTotals := u.monthly;
    }

    /** `log_call`: the record, then the day bucket, then the month bucket,
        each updated in place. */
    method LogCall(inputTokens: nat, outputTokens: nat, now: int, day: string, month: string)
      modifies this
      ensures Snapshot() == Logged(config, old(Snapshot()), inputTokens, outputTokens, now, day, month)
    {
      var cost := EstimateCost(config, inputTokens, outputTokens);
      calls := calls + [CallRecord(now, inputTokens, outputTokens, cost)];
      ghost var daily0, monthly0 := dailyTotals, monthlyTotals;
      if day !in dailyTotals {
        dailyTotals := dailyTotals[day := Zero];
      }
      var d := dailyTotals[day];
      assert d == BucketOr(daily0, day);
      dailyTotals := dailyTotals[day := Totals(d.calls + 1, d.cost + cost, d.tokens + inputTokens + outputTokens)];
      assert dailyTotals == Bump(daily0, day, inputTokens + outputTokens, cost);
      if month !in monthlyTotals {
        monthlyTotals := monthlyTotals[month := Zero];
      }
      var m := monthlyTotals[month];
      assert m == BucketOr(monthly0, month);
      monthlyTotals := monthlyTotals[month := Totals(m.calls + 1, m.cost + cost, m.tokens + inputTokens + outputTokens)];
      assert monthlyTotals == Bump(monthly0, month, inputTokens + outputTokens, cost);
    }

    /** `can_make_call`, checked in the source's order. */
    function CanMakeCall(day: string, month: string): (ok: bool)
      reads this
      ensures ok <==> CanCall(config, Snapshot(), day, month)
    {
      var daily := BucketOr(dailyTotals, day);
      if daily.calls >= config.maxCallsPerDay then false
      else if daily.cost >= config.dailyLimit then false
      else
        var monthly := BucketOr(monthlyTotals, month);
        if monthly.cost >= config.monthlyLimit then false
        else true
    }

    /** `get_dashboard_data`: the day's and month's buckets against their
        limits, the call gate, and the last ten call records. */
    function DashboardData(day: string, month: string): (d: BudgetDashboard)
      reads this
      ensures d.daily.percent <= 100.0 && d.monthly.percent <= 100.0
      ensures config.dailyLimit <= 0.0 ==> d.daily.percent == 0.0
      ensures config.monthlyLimit <= 0.0 ==> d.monthly.percent == 0.0
      ensures var b := BucketOr(dailyTotals, day);
        d.daily == DailyView(b.cost, config.dailyLimit, Percent(b.cost, config.dailyLimit),
                             b.calls, config.maxCallsPerDay, b.tokens)
      ensures var b := BucketOr(monthlyTotals, month);
        d.monthly == MonthlyView(b.cost, config.monthlyLimit, Percent(b.cost, config.monthlyLimit),
                                 b.calls, b.tokens)
      ensures d.canCall <==> CanCall(config, Snapshot(), day, month)
      ensures |d.recentCalls| == Min(10, |calls|) && d.recentCalls == calls[|calls| - |d.recentCalls|..]
    {
      var daily := BucketOr(dailyTotals, day);
      var monthly := BucketOr(monthlyTotals, month);
      BudgetDashboard(
        DailyView(daily.cost, config.dailyLimit, Percent(daily.cost, config.dailyLimit),
                  daily.calls, config.maxCallsPerDay, daily.tokens),
        MonthlyView(monthly.cost, config.monthlyLimit, Percent(monthly.cost, config.monthlyLimit),
                    monthly.calls, monthly.tokens),
        CanMakeCall(day, month),
        PyTail(calls, 10))
    }
  }
}
