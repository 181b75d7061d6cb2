/** The watchdog (modules/watchdog.py): liveness by substring search in the
    `screen -ls` listing, data freshness from the newest trade timestamp, the
    DEAD/STALE/HEALTHY classification, and the restart limiter, a sliding
    window over the restart attempts of each bot.

    Subprocess calls, the sleeps of the restart sequence, SQLite and HTTP are
    not modelled: their outcomes are parameters. Times are integer seconds. */
module Watchdog {
  import opened Common
  import opened Config

  // ---------------------------------------------------------------------------
  // Process liveness

  /** `check_screen_session`: `listing` is the stdout of `screen -ls`, or None
      when the subprocess raised. Alive iff the screen name occurs in it. */
  function CheckScreenSession(listing: Option<string>, screenName: string): (alive: bool)
    ensures alive <==> listing.Some? && exists i :: OccursAt(listing.value, screenName, i)
  {
    listing.Some? && Contains(listing.value, screenName)
  }

  // ---------------------------------------------------------------------------
  // Data freshness

  /** What `datetime.fromisoformat` returned: the wall-clock reading as epoch
      seconds and the UTC offset in seconds, if the text carried one. */
  datatype IsoReading = IsoReading(wall: int, offset: Option<int>)

  /** The value of `MAX(timestamp)` as stored text, with the outcome of parsing
      the text the first attempt hands to fromisoformat (`direct`, with "Z"
      already rewritten to "+00:00") and of parsing the text cut at the first
      '+' and 'Z' (`stripped`, which has no offset). None means it raised. */
  datatype StoredStamp = StoredStamp(text: string, direct: Option<IsoReading>, stripped: Option<int>)

  /** The outcome of the freshness query. */
  datatype DbRead = DbError | NoRow | Stamp(stamp: StoredStamp)

  /** The instant (UTC epoch seconds) of a stored timestamp AS WRITTEN at
      lines 61-77: when the text has no 'Z', no '+' and does not end in
      "00:00", line 67 replaces whatever offset the parse found with UTC. */
  function ParsedInstantAsWritten(s: StoredStamp): Option<int> {
    match s.direct
    case Some(r) =>
      if Contains(s.text, "Z") || Contains(s.text, "+") || EndsWith(s.text, "00:00") then
        Some(r.wall - r.offset.GetOr(0))
      else
        Some(r.wall)
    case None =>
      if s.stripped.Some? then Some(s.stripped.value) else None
  }

  /** The instant as intended: an offset the text carries is honoured and only
      a naive reading is taken as UTC. */
  function ParsedInstant(s: StoredStamp): (t: Option<int>)
    ensures s.direct.Some? ==> t == Some(s.direct.value.wall - s.direct.value.offset.GetOr(0))
    ensures s.direct.None? ==> t == s.stripped
  {
    match s.direct
    case Some(r) => Some(r.wall - r.offset.GetOr(0))
    case None => s.stripped
  }

  /** The two agree on every naive timestamp and on every text that shows a
      'Z', a '+' or ends in "00:00"; they differ only on the offsets line 67
      discards. */
  lemma ParsedInstantAgrees(s: StoredStamp)
    requires s.direct.Some?
    ensures ParsedInstantAsWritten(s) == ParsedInstant(s) <==>
      (s.direct.value.offset.GetOr(0) == 0
       || Contains(s.text, "Z") || Contains(s.text, "+") || EndsWith(s.text, "00:00"))
  {
  }

  lemma NoCharNoOccurrence(s: string, c: char)
    requires c !in s
    ensures !Contains(s, [c])
  {
    forall i | 0 <= i && i + 1 <= |s| ensures !OccursAt(s, [c], i) {
      assert s[i..i + 1][0] == s[i];
    }
  }

  /** A timestamp written with the Eastern offset the daemon itself uses,
      "2025-01-06T10:00:00-05:00", is read five hours too early as written. */
  lemma EasternOffsetReadAsUtc(wall: int)
    ensures var s := StoredStamp("2025-01-06T10:00:00-05:00", Some(IsoReading(wall, Some(-18000))), None);
      && ParsedInstantAsWritten(s) == Some(wall)
      && ParsedInstant(s) == Some(wall + 18000)
  {
    var text := "2025-01-06T10:00:00-05:00";
    assert 'Z' !in text && '+' !in text;
    NoCharNoOccurrence(text, 'Z');
    NoCharNoOccurrence(text, '+');
    assert text[|text| - 5..] == "05:00";
  }

  /** What `check_db_freshness` returns. */
  datatype Freshness = Freshness(isFresh: bool, lastTrade: Option<int>, staleSeconds: Option<int>)

  /** `check_db_freshness`: fresh iff the age of the newest trade is strictly
      below the threshold; a failed query, a missing or empty value, or a
      timestamp no parse accepts gives "not fresh, unknown age". */
  function CheckDbFreshness(read: DbRead, now: int, staleThreshold: int): (f: Freshness)
    ensures f.isFresh <==> f.staleSeconds.Some? && f.staleSeconds.value < staleThreshold
    ensures f.staleSeconds.Some? <==> f.lastTrade.Some?
    ensures f.lastTrade.Some? ==> f.staleSeconds.value == now - f.lastTrade.value
    ensures f.lastTrade.Some? <==> read.Stamp? && read.stamp.text != [] && ParsedInstant(read.stamp).Some?
    ensures f.lastTrade.Some? ==> f.lastTrade == ParsedInstant(read.stamp)
  {
    match read
    case DbError => Freshness(false, None, None)
    case NoRow => Freshness(false, None, None)
    case Stamp(s) =>
      if s.text == [] then Freshness(false, None, None)
      else match ParsedInstant(s)
        case None => Freshness(false, None, None)
        case Some(t) => Freshness(now - t < staleThreshold, Some(t), Some(now - t))
  }

  // ---------------------------------------------------------------------------
  // Dashboard probe and classification

  datatype DashboardStatus = NoPortConfigured | ConnectionFailed | Responded(alive: bool, statusCode: int)

  /** `check_dashboard_alive`: `response` is the HTTP status code, or None when
      the request raised. */
  function CheckDashboardAlive(port: Option<int>, response: Option<int>): (d: DashboardStatus)
    ensures (port.None? || port == Some(0)) <==> d == NoPortConfigured
    ensures d == ConnectionFailed <==> port.Some? && port != Some(0) && response.None?
    ensures d.Responded? <==> port.Some? && port != Some(0) && response.Some?
    ensures d.Responded? ==> d.statusCode == response.value && (d.alive <==> d.statusCode == 200)
  {
    if port.None? || port == Some(0) then NoPortConfigured
    else match response
      case None => ConnectionFailed
      case Some(code) => Responded(code == 200, code)
  }

  datatype Health = Dead | Stale | Healthy

  /** The precedence of lines 199-204: a dead process is DEAD whatever its data
      says, a live process with stale data is STALE, otherwise HEALTHY. */
  function Classify(alive: bool, isFresh: bool): (h: Health)
    ensures h == Dead <==> !alive
    ensures h == Stale <==> alive && !isFresh
    ensures h == Healthy <==> alive && isFresh
  {
    if !alive then Dead else if !isFresh then Stale else Healthy
  }

  /** One entry of the health report. */
  datatype HealthEntry =
    | Disabled
    | Checked(health: Health, alive: bool, database: Freshness, dashboard: DashboardStatus)

  /** The probe outcomes for one bot. */
  datatype Probes = Probes(screenListing: Option<string>, db: DbRead, dashboardResponse: Option<int>)

  /** The report entry of one bot: disabled bots are not probed at all. */
  function EntryFor(c: BotConfig, p: Probes, now: int, staleThreshold: int): (e: HealthEntry)
    ensures !c.enabled.GetOr(true) <==> e.Disabled?
    ensures e.Checked? ==>
      && e.alive == CheckScreenSession(p.screenListing, c.screenName)
      && e.database == CheckDbFreshness(p.db, now, staleThreshold)
      && e.health == Classify(e.alive, e.database.isFresh)
  {
    if !c.enabled.GetOr(true) then Disabled
    else
      var alive := CheckScreenSession(p.screenListing, c.screenName);
      var db := CheckDbFreshness(p.db, now, staleThreshold);
      Checked(Classify(alive, db.isFresh), alive, db,
              CheckDashboardAlive(c.dashboardPort, p.dashboardResponse))
  }

  // ---------------------------------------------------------------------------
  // The restart limiter

  datatype Attempt = Attempt(ts: int, success: bool)

  /** `watchdog` settings that bound restarts. */
  datatype RestartPolicy = RestartPolicy(maxAttempts: int, cooldown: int)

  datatype RestartReason =
    | AutoRestartDisabled
    | MaxAttemptsExceeded
    | Restarted
    | StartFailed
    | RestartError(message: string)

  datatype RestartResult = RestartResult(success: bool, reason: RestartReason, attempts: Option<int>)

  /** What the restart sequence did: it ran and the liveness probe afterwards
      said `aliveAfter`, or some step raised. */
  datatype RestartOutcome = Relaunched(aliveAfter: bool) | Raised(message: string)

  /** Line 111: the entries younger than `window` seconds. */
  function Pruned(h: seq<Attempt>, now: int, window: int): (r: seq<Attempt>)
    ensures |r| <= |h|
    ensures forall a :: a in r <==> a in h && now - a.ts < window
  {
    if h == [] then []
    else if now - h[0].ts < window then [h[0]] + Pruned(h[1..], now, window)
    else Pruned(h[1..], now, window)
  }

  /** Pruning is an order-preserving filter: an entry appended to the history
      is kept at the end exactly when it is young enough. */
  lemma {:induction false} PrunedAppend(h: seq<Attempt>, a: Attempt, now: int, window: int)
    ensures Pruned(h + [a], now, window)
         == Pruned(h, now, window) + (if now - a.ts < window then [a] else [])
    decreases |h|
  {
    if h == [] {
      assert [] + [a] == [a];
    } else {
      assert (h + [a])[1..] == h[1..] + [a];
      PrunedAppend(h[1..], a, now, window);
    }
  }

  /** The pruning horizon of line 111, `cooldown * max_attempts`. */
  function Horizon(p: RestartPolicy): int {
    p.cooldown * p.maxAttempts
  }

  /** Line 112: how many entries are younger than `cooldown` seconds. */
  function CountRecent(h: seq<Attempt>, now: int, cooldown: int): (n: nat)
    ensures n <= |h|
  {
    if h == [] then 0
    else (if now - h[0].ts < cooldown then 1 else 0) + CountRecent(h[1..], now, cooldown)
  }

  /** The result of one `restart_bot` call and the history it stores, None
      when `restart_history` is left untouched. */
  datatype RestartDecision = RestartDecision(result: RestartResult, stored: Option<seq<Attempt>>)

  /** `restart_bot` as a function of the stored history of the bot. */
  function RestartStep(h: seq<Attempt>, c: BotConfig, p: RestartPolicy, now: int,
                       outcome: RestartOutcome): (d: RestartDecision)
  {
    if !c.autoRestart.GetOr(true) then
      RestartDecision(RestartResult(false, AutoRestartDisabled, None), None)
    else
      var pruned := Pruned(h, now, Horizon(p));
      var recent := CountRecent(pruned, now, p.cooldown);
      if recent >= p.maxAttempts then
        RestartDecision(RestartResult(false, MaxAttemptsExceeded, Some(recent)), None)
      else match outcome
        case Relaunched(alive) =>
          RestartDecision(RestartResult(alive, if alive then Restarted else StartFailed, Some(recent + 1)),
                          Some(pruned + [Attempt(now, alive)]))
        case Raised(msg) =>
          RestartDecision(RestartResult(false, RestartError(msg), Some(recent + 1)),
                          Some(pruned + [Attempt(now, false)]))
  }

  lemma {:induction false} CountRecentAppend(h: seq<Attempt>, a: Attempt, now: int, cooldown: int)
    ensures CountRecent(h + [a], now, cooldown)
         == CountRecent(h, now, cooldown) + (if now - a.ts < cooldown then 1 else 0)
  {
    if h != [] {
      assert (h + [a])[1..] == h[1..] + [a];
      CountRecentAppend(h[1..], a, now, cooldown);
    }
  }

  /** Entries recent at a later time were recent at an earlier one, as long as
      none lies in the future of the earlier time. */
  lemma {:induction false} CountRecentMonotone(h: seq<Attempt>, now: int, later: int, cooldown: int)
    requires now <= later
    requires forall a :: a in h ==> a.ts <= now
    ensures CountRecent(h, later, cooldown) <= CountRecent(h, now, cooldown)
  {
    if h != [] {
      CountRecentMonotone(h[1..], now, later, cooldown);
    }
  }

  lemma {:induction false} PrunedKeepsPast(h: seq<Attempt>, now: int, window: int, bound: int)
    requires forall a :: a in h ==> a.ts <= bound
    ensures forall a :: a in Pruned(h, now, window) ==> a.ts <= bound
  {
  }

  /** The two refusals: with auto restart off nothing is stored and the reason
      says so; with the window full the call reports the recent count and the
      stored history is left as it was. */
  lemma RestartRefusals(h: seq<Attempt>, c: BotConfig, p: RestartPolicy, now: int,
                        outcome: RestartOutcome)
    ensures var d := RestartStep(h, c, p, now, outcome);
      var recent := CountRecent(Pruned(h, now, Horizon(p)), now, p.cooldown);
      && (!c.autoRestart.GetOr(true) ==> d.result.reason == AutoRestartDisabled && d.stored.None?)
      && (c.autoRestart.GetOr(true) && recent >= p.maxAttempts ==>
            d.result == RestartResult(false, MaxAttemptsExceeded, Some(recent)) && d.stored.None?)
      && (d.stored.None? ==> !d.result.success)
  {
  }

  /** An attempt is made only when fewer than `maxAttempts` entries are
      recent; it stores the pruned history plus exactly one entry at `now`
      whose success is the probe outcome (false when a step raised), and
      reports as `attempts` the number of recent entries of what it stored,
      which is at most `maxAttempts`, when the cooldown is positive. */
  lemma {:induction false} RestartAttemptCounted(h: seq<Attempt>, c: BotConfig, p: RestartPolicy,
                                                 now: int, outcome: RestartOutcome)
    requires RestartStep(h, c, p, now, outcome).stored.Some?
    ensures var d := RestartStep(h, c, p, now, outcome);
      && d.stored.value == Pruned(h, now, Horizon(p)) + [Attempt(now, d.result.success)]
      && d.result.success == (outcome == Relaunched(true))
      && d.result.attempts.Some?
      && (p.cooldown > 0 ==>
            d.result.attempts.value == CountRecent(d.stored.value, now, p.cooldown) <= p.maxAttempts)
  {
    var d := RestartStep(h, c, p, now, outcome);
    var pruned := Pruned(h, now, Horizon(p));
    CountRecentAppend(pruned, Attempt(now, d.result.success), now, p.cooldown);
  }

  /** The leaky-bucket bound: entries of the stored history lie no later than
      the latest call, and at most `maxAttempts` of them lie within the
      cooldown window ending at that call. */
  ghost predicate Bounded(h: seq<Attempt>, p: RestartPolicy, now: int) {
    (forall a :: a in h ==> a.ts <= now) && CountRecent(h, now, p.cooldown) <= p.maxAttempts
  }

  /** Calls made at non-decreasing times keep the bound, whatever the restart
      outcomes: no more than `maxAttempts` restarts ever fall in one cooldown
      window. */
  lemma {:induction false} RestartKeepsBound(h: seq<Attempt>, c: BotConfig, p: RestartPolicy,
                                             now: int, later: int, outcome: RestartOutcome)
    requires Bounded(h, p, now) && now <= later
    ensures var d := RestartStep(h, c, p, later, outcome);
      Bounded(if d.stored.Some? then d.stored.value else h, p, later)
  {
    var d := RestartStep(h, c, p, later, outcome);
    CountRecentMonotone(h, now, later, p.cooldown);
    if d.stored.Some? {
      var pruned := Pruned(h, later, Horizon(p));
      PrunedKeepsPast(h, later, Horizon(p), later);
      CountRecentAppend(pruned, Attempt(later, d.result.success), later, p.cooldown);
    }
  }

  /** A history whose every entry was made at `now` is kept whole by pruning
      and counted whole as recent, for a positive window. */
  lemma {:induction false} AllAtNow(h: seq<Attempt>, now: int, window: int, cooldown: int)
    requires forall a :: a in h ==> a.ts == now
    requires window > 0 && cooldown > 0
    ensures Pruned(h, now, window) == h
    ensures CountRecent(h, now, cooldown) == |h|
  {
    if h != [] {
      AllAtNow(h[1..], now, window, cooldown);
    }
  }

  /** One call on a history made entirely at `now`: it attempts while the
      history holds fewer than `maxAttempts` entries and refuses after. */
  lemma StepAtNow(h: seq<Attempt>, c: BotConfig, p: RestartPolicy, now: int, outcome: RestartOutcome)
    requires forall a :: a in h ==> a.ts == now
    requires c.autoRestart.GetOr(true) && p.cooldown > 0 && Horizon(p) > 0
    ensures var d := RestartStep(h, c, p, now, outcome);
      if |h| < p.maxAttempts then
        && d.stored.Some? && |d.stored.value| == |h| + 1
        && (forall a :: a in d.stored.value ==> a.ts == now)
        && d.result.attempts == Some(|h| + 1)
      else
        d.result == RestartResult(false, MaxAttemptsExceeded, Some(|h|)) && d.stored.None?
  {
    AllAtNow(h, now, Horizon(p), p.cooldown);
  }

  /** With a fixed `now` and at most three attempts, four consecutive calls
      make three attempts and the fourth is refused. */
  lemma FourCallsAtOneInstant(c: BotConfig, cooldown: int, now: int,
                              o1: RestartOutcome, o2: RestartOutcome, o3: RestartOutcome, o4: RestartOutcome)
    requires c.autoRestart.GetOr(true) && cooldown > 0
    ensures var p := RestartPolicy(3, cooldown);
      var d1 := RestartStep([], c, p, now, o1);
      var d2 := RestartStep(d1.stored.value, c, p, now, o2);
      var d3 := RestartStep(d2.stored.value, c, p, now, o3);
      var d4 := RestartStep(d3.stored.value, c, p, now, o4);
      && d1.result.attempts == Some(1) && d2.result.attempts == Some(2) && d3.result.attempts == Some(3)
      && d4.result == RestartResult(false, MaxAttemptsExceeded, Some(3)) && d4.stored.None?
  {
    var p := RestartPolicy(3, cooldown);
    assert Horizon(p) > 0;
    StepAtNow([], c, p, now, o1);
    var d1 := RestartStep([], c, p, now, o1);
    StepAtNow(d1.stored.value, c, p, now, o2);
    var d2 := RestartStep(d1.stored.value, c, p, now, o2);
    StepAtNow(d2.stored.value, c, p, now, o3);
    var d3 := RestartStep(d2.stored.value, c, p, now, o3);
    StepAtNow(d3.stored.value, c, p, now, o4);
  }

  // ---------------------------------------------------------------------------
  // The watchdog object

  class Watchdog {
    /** bot name -> list of (timestamp, success) restart attempts. */
    var restartHistory: map<string, seq<Attempt>>

    constructor ()
      ensures restartHistory == map[]
    {
      restartHistory := map[];
    }

    function HistoryOf(botName: string): seq<Attempt>
      reads this
    {
      if botName in restartHistory then restartHistory[botName] else []
    }

    /** `restart_bot`: refuse when auto restart is off or the window is full,
        otherwise run the restart sequence (its outcome is a parameter) and
        store the pruned history with one new entry. */
    method RestartBot(botName: string, c: BotConfig, p: RestartPolicy, now: int,
                      outcome: RestartOutcome) returns (r: RestartResult)
      modifies this
      ensures var d := RestartStep(old(HistoryOf(botName)), c, p, now, outcome);
        && r == d.result
        && restartHistory == if d.stored.Some? then old(restartHistory)[botName := d.stored.value]
                             else old(restartHistory)
    {
      if !c.autoRestart.GetOr(true) {
        return RestartResult(false, AutoRestartDisabled, None);
      }
      var history := HistoryOf(botName);
      history := Pruned(history, now, Horizon(p));
      var recent := CountRecent(history, now, p.cooldown);
      if recent >= p.maxAttempts {
        return RestartResult(false, MaxAttemptsExceeded, Some(recent));
      }
      match outcome {
        case Relaunched(alive) =>
          history := history + [Attempt(now, alive)];
          restartHistory := restartHistory[botName := history];
          r := RestartResult(alive, if alive then Restarted else StartFailed, Some(recent + 1));
        case Raised(msg) =>
          history := history + [Attempt(now, false)];
          restartHistory := restartHistory[botName := history];
          r := RestartResult(false, RestartError(msg), Some(recent + 1));
      }
    }

    /** `get_full_health_report`: one entry per configured bot, filled in a
        loop over the configuration. `probe` gives each bot's probe outcomes. */
    method FullHealthReport(bots: seq<Bot>, probe: string -> Probes, now: int, staleThreshold: int)
      returns (report: map<string, HealthEntry>)
      requires DistinctNames(bots)
      ensures report.Keys == set b | b in bots :: b.name
      ensures forall i :: 0 <= i < |bots| ==>
        report[bots[i].name] == EntryFor(bots[i].config, probe(bots[i].name), now, staleThreshold)
    {
      report := map[];
      var i := 0;
      while i < |bots|
        invariant 0 <= i <= |bots|
        invariant report.Keys == set b | b in bots[..i] :: b.name
        invariant forall k :: 0 <= k < i ==>
          report[bots[k].name] == EntryFor(bots[k].config, probe(bots[k].name), now, staleThreshold)
      {
        var b := bots[i];
        report := report[b.name := EntryFor(b.config, probe(b.name), now, staleThreshold)];
        i := i + 1;
      }
      assert bots[..i] == bots;
    }
  }
}
