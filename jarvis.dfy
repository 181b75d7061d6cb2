/** The control loop of the daemon (`Jarvis` in jarvis.py): the periodic
    health and loss-streak checks that route their verdicts through the
    approval engine before acting, the 300-second anti-spam gate for stale
    bots, the chat log capped at 200 entries, the drain of approved actions
    into the executor, the operator's text commands, and the main loop with
    its per-check intervals and exception handling.

    Everything the loop reads from the outside world in one cycle (the clock,
    the probes, the restart outcomes, the loss rows, the executor's world and
    the millisecond clock used for action ids) is a `World` value. */
module Daemon {
  import opened Common
  import opened Config
  import opened Approvals
  import opened Watchdog
  import opened Executor
  import Analyst

  /** Length of the chat log kept in memory. */
  const ChatLimit := 200

  /** Seconds between two stale alerts for the same bot. */
  const StaleAlertGap := 300

  const RestartType := "restart_crashed_bot"
  const PauseType := "pause_on_loss_streak"

  // ---------------------------------------------------------------------------
  // Configuration, inputs and the chat log

  /** The `watchdog`, `safety` and `haiku` settings the loop reads. */
  datatype Settings = Settings(
    heartbeatInterval: int,
    settlementInterval: int,
    statsInterval: int,
    analysisInterval: int,
    maxConsecutiveLosses: int,
    staleThreshold: int,
    restartPolicy: RestartPolicy)

  /** What the outside world supplies during one cycle. */
  datatype World = World(
    /** `time.time()`, in whole seconds. */
    now: int,
    /** The screen listing, database read and dashboard reply of each bot. */
    probe: string -> Probes,
    /** What the restart sequence of each bot does. */
    restart: string -> RestartOutcome,
    /** The `won` column of each bot's settled trades, newest first. */
    losses: string -> Option<seq<Option<int>>>,
    /** The files and processes the executor meets for each bot. */
    env: string -> Env,
    /** The millisecond clock read by `submit_action` for a bot's restart
        request and for its pause request. */
    restartId: string -> nat,
    pauseId: string -> nat)

  datatype Source = FromJarvis | FromWatchdog | FromAnalyst | FromUser

  datatype Level = Info | Success | Warning | Error

  /** The messages the loop writes into the chat log; their rendering with
      emoji and number formatting is not modelled. */
  datatype Message =
    | Online
    | BotDown(bot: string)
    | RestartSucceeded(bot: string)
    | RestartFailed(reason: RestartReason)
    | StaleAlert(bot: string, staleSeconds: Option<int>)
    | LossStreak(bot: string, streak: nat)
    | PausedOnStreak(bot: string, streak: nat)
    | ExecutedAction(description: string)
    | UserText(text: string)
    | HealthCheckComplete
    | PausedByUser(bot: string)
    | ResumedByUser(bot: string)
    | UnknownBot(bot: string)

  /** One `chat_log` entry; the clock reading stands for the formatted time. */
  datatype ChatEntry = ChatEntry(time: int, source: Source, message: Message, level: Level)

  /** The decimal rendering of `f"{n}"`. */
  function DigitChar(d: nat): char
    requires d < 10
  {
    ('0' as int + d) as char
  }

  function NatToString(n: nat): string
    decreases n
  {
    if n < 10 then [DigitChar(n)] else NatToString(n / 10) + [DigitChar(n % 10)]
  }

  function IntToString(i: int): string {
    if i < 0 then "-" + NatToString(-i) else NatToString(i)
  }

  function Names(bots: seq<Bot>): set<string> {
    set b | b in bots :: b.name
  }

  // ---------------------------------------------------------------------------
  // Health verdicts and the stale-alert gate

  predicate IsDead(report: map<string, HealthEntry>, name: string) {
    name in report && report[name].Checked? && report[name].health == Dead
  }

  predicate IsStale(report: map<string, HealthEntry>, name: string) {
    name in report && report[name].Checked? && report[name].health == Stale
  }

  /** `last_stale_alert.get(bot, 0)`. */
  function AlertGet(alerts: map<string, int>, name: string): int {
    if name in alerts then alerts[name] else 0
  }

  /** A stale bot is alerted about when at least 300 seconds have passed
      since its last alert. */
  predicate StaleDue(alerts: map<string, int>, report: map<string, HealthEntry>, name: string,
                     now: int) {
    IsStale(report, name) && now - AlertGet(alerts, name) >= StaleAlertGap
  }

  /** The alert map after one bot's turn in `check_health`. */
  function StaleStep(alerts: map<string, int>, report: map<string, HealthEntry>, name: string,
                     now: int): map<string, int>
  {
    if StaleDue(alerts, report, name, now) then alerts[name := now] else alerts
  }

  /** The alert map after the turns of `bots`, in order. */
  function StaleAlerts(alerts: map<string, int>, bots: seq<Bot>, report: map<string, HealthEntry>,
                       now: int): map<string, int>
    decreases |bots|
  {
    if bots == [] then alerts
    else StaleStep(StaleAlerts(alerts, bots[..|bots| - 1], report, now), report,
                   bots[|bots| - 1].name, now)
  }

  /** The gate, bot by bot: a configured bot whose entry is STALE and whose
      last alert (0 when none) is at least 300 seconds old gets `now` as its
      new alert time; every other entry of the map is left as it was. */
  lemma {:induction false} StaleAlertsPointwise(alerts: map<string, int>, bots: seq<Bot>,
                                                report: map<string, HealthEntry>, now: int,
                                                name: string)
    requires DistinctNames(bots)
    ensures var r := StaleAlerts(alerts, bots, report, now);
      if name in Names(bots) && StaleDue(alerts, report, name, now)
      then name in r && r[name] == now
      else (name in r <==> name in alerts) && (name in r ==> r[name] == alerts[name])
    decreases |bots|
  {
    if bots != [] {
      var init := bots[..|bots| - 1];
      var last := bots[|bots| - 1];
      assert DistinctNames(init);
      StaleAlertsPointwise(alerts, init, report, now, name);
      assert Names(bots) == Names(init) + {last.name} by {
        assert forall b :: b in bots <==> b in init || b == last;
      }
      if name == last.name {
        assert name !in Names(init) by {
          forall b | b in init ensures b.name != name {
            var k :| 0 <= k < |init| && init[k] == b;
            assert bots[k] == b;
          }
        }
      }
    }
  }

  /** The gate cannot fire twice within 300 seconds: after a check at `t1`
      that alerted about `name`, a check at `t2` less than 300 seconds later
      leaves its alert time at `t1`, whatever the second report says. */
  lemma NoSecondAlertWithinGap(alerts: map<string, int>, bots: seq<Bot>,
                               report1: map<string, HealthEntry>, report2: map<string, HealthEntry>,
                               t1: int, t2: int, name: string)
    requires DistinctNames(bots)
    requires name in Names(bots) && StaleDue(alerts, report1, name, t1)
    requires t2 - t1 < StaleAlertGap
    ensures var a1 := StaleAlerts(alerts, bots, report1, t1);
      var a2 := StaleAlerts(a1, bots, report2, t2);
      name in a2 && a2[name] == t1
  {
    var a1 := StaleAlerts(alerts, bots, report1, t1);
    StaleAlertsPointwise(alerts, bots, report1, t1, name);
    StaleAlertsPointwise(a1, bots, report2, t2, name);
  }

  // ---------------------------------------------------------------------------
  // Restart requests

  /** The record `submit_action` builds for a DEAD bot. */
  function RestartRequest(name: string, w: World, tier: Tier): Action {
    NewAction(w.restartId(name), RestartType, "Restart " + name + " - process not found",
              "Screen session not detected", Some(name), None, tier, w.now)
  }

  /** The restart requests of a health pass, one per DEAD bot in order. */
  function RestartRequests(bots: seq<Bot>, report: map<string, HealthEntry>, w: World,
                           tier: Tier): seq<Action>
    decreases |bots|
  {
    if bots == [] then []
    else
      var init := RestartRequests(bots[..|bots| - 1], report, w, tier);
      var name := bots[|bots| - 1].name;
      if IsDead(report, name) then init + [RestartRequest(name, w, tier)] else init
  }

  /** A restart is requested for a bot exactly when it is configured and its
      entry is DEAD. */
  lemma {:induction false} RestartRequestsAreDeadBots(bots: seq<Bot>, report: map<string, HealthEntry>,
                                                      w: World, tier: Tier, a: Action)
    ensures a in RestartRequests(bots, report, w, tier) <==>
      exists i :: 0 <= i < |bots| && IsDead(report, bots[i].name) && a == RestartRequest(bots[i].name, w, tier)
    decreases |bots|
  {
    if bots != [] {
      var init := bots[..|bots| - 1];
      RestartRequestsAreDeadBots(init, report, w, tier, a);
      if exists i :: 0 <= i < |bots| && IsDead(report, bots[i].name) && a == RestartRequest(bots[i].name, w, tier) {
        var i :| 0 <= i < |bots| && IsDead(report, bots[i].name) && a == RestartRequest(bots[i].name, w, tier);
        if i < |init| {
          assert init[i] == bots[i];
        }
      }
      if exists i :: 0 <= i < |init| && IsDead(report, init[i].name) && a == RestartRequest(init[i].name, w, tier) {
        var i :| 0 <= i < |init| && IsDead(report, init[i].name) && a == RestartRequest(init[i].name, w, tier);
        assert bots[i] == init[i];
      }
    }
  }

  /** `restart_history.get(name, [])`. */
  function HistoryIn(m: map<string, seq<Attempt>>, name: string): seq<Attempt> {
    if name in m then m[name] else []
  }

  /** The restart history map after `restart_bot` for one bot. */
  function RestartedIn(m: map<string, seq<Attempt>>, b: Bot, p: RestartPolicy, w: World)
    : map<string, seq<Attempt>>
  {
    var d := RestartStep(HistoryIn(m, b.name), b.config, p, w.now, w.restart(b.name));
    if d.stored.Some? then m[b.name := d.stored.value] else m
  }

  /** The restart history map after a health pass whose restarts are all
      auto-approved: every DEAD bot, in order, goes through `restart_bot`. */
  function RestartsAfter(m: map<string, seq<Attempt>>, bots: seq<Bot>, report: map<string, HealthEntry>,
                         p: RestartPolicy, w: World): map<string, seq<Attempt>>
    decreases |bots|
  {
    if bots == [] then m
    else
      var r := RestartsAfter(m, bots[..|bots| - 1], report, p, w);
      var b := bots[|bots| - 1];
      if IsDead(report, b.name) then RestartedIn(r, b, p, w) else r
  }

  /** Only DEAD bots are restarted: the history of a bot that is not
      configured or not DEAD is untouched, and a DEAD configured bot's
      history is what one `restart_bot` call makes of it. */
  lemma {:induction false} RestartsOnlyDeadBots(m: map<string, seq<Attempt>>, bots: seq<Bot>,
                                                report: map<string, HealthEntry>, p: RestartPolicy,
                                                w: World, k: nat)
    requires DistinctNames(bots) && k < |bots|
    ensures var r := RestartsAfter(m, bots, report, p, w);
      var name := bots[k].name;
      if IsDead(report, name) then HistoryIn(r, name) == HistoryIn(RestartedIn(m, bots[k], p, w), name)
      else (name in r <==> name in m) && (name in r ==> r[name] == m[name])
    decreases |bots|
  {
    var init := bots[..|bots| - 1];
    var last := bots[|bots| - 1];
    assert DistinctNames(init);
    if k < |init| {
      assert init[k] == bots[k];
      RestartsOnlyDeadBots(m, init, report, p, w, k);
      assert last.name != bots[k].name;
    } else {
      UntouchedByOthers(m, init, report, p, w, last.name);
    }
  }

  /** A name that no bot of `bots` carries keeps its history. */
  lemma {:induction false} UntouchedByOthers(m: map<string, seq<Attempt>>, bots: seq<Bot>,
                                             report: map<string, HealthEntry>, p: RestartPolicy,
                                             w: World, name: string)
    requires forall i :: 0 <= i < |bots| ==> bots[i].name != name
    ensures var r := RestartsAfter(m, bots, report, p, w);
      (name in r <==> name in m) && (name in r ==> r[name] == m[name])
    decreases |bots|
  {
    if bots != [] {
      var init := bots[..|bots| - 1];
      assert forall i :: 0 <= i < |init| ==> init[i] == bots[i];
      UntouchedByOthers(m, init, report, p, w, name);
    }
  }

  // ---------------------------------------------------------------------------
  // Pause requests on a loss streak

  /** The streak `_detect_loss_streak` reports for a bot's rows. */
  function Streak(db: Option<seq<Option<int>>>): nat {
    if db.None? then 0 else Analyst.LeadingLosses(db.value[..Min(10, |db.value|)])
  }

  /** A bot is checked only when `bot_config.get("enabled")` is truthy (a
      missing key counts as disabled here), and paused when its streak
      reached `max_consecutive_losses`. */
  predicate PauseWanted(b: Bot, w: World, maxLosses: int) {
    b.config.enabled.GetOr(false) && Streak(w.losses(b.name)) >= maxLosses
  }

  /** The record `submit_action` builds for a loss streak. */
  function PauseRequest(b: Bot, w: World, maxLosses: int, tier: Tier): Action {
    var streak := Streak(w.losses(b.name));
    NewAction(w.pauseId(b.name), PauseType,
              "Pause " + b.name + " - " + NatToString(streak) + " consecutive losses",
              "Safety rail: " + NatToString(streak) + " losses >= " + IntToString(maxLosses),
              Some(b.name),
              Some(map["reason" := PText(NatToString(streak) + "_consecutive_losses"),
                       "streak" := PInt(streak)]),
              tier, w.now)
  }

  function PauseRequests(bots: seq<Bot>, w: World, maxLosses: int, tier: Tier): seq<Action>
    decreases |bots|
  {
    if bots == [] then []
    else
      var init := PauseRequests(bots[..|bots| - 1], w, maxLosses, tier);
      var b := bots[|bots| - 1];
      if PauseWanted(b, w, maxLosses) then init + [PauseRequest(b, w, maxLosses, tier)] else init
  }

  /** A pause is requested for a bot exactly when it is enabled and its
      streak reached the maximum. */
  lemma {:induction false} PauseRequestsAreStreaks(bots: seq<Bot>, w: World, maxLosses: int,
                                                   tier: Tier, a: Action)
    ensures a in PauseRequests(bots, w, maxLosses, tier) <==>
      exists i :: 0 <= i < |bots| && PauseWanted(bots[i], w, maxLosses)
        && a == PauseRequest(bots[i], w, maxLosses, tier)
    decreases |bots|
  {
    if bots != [] {
      var init := bots[..|bots| - 1];
      PauseRequestsAreStreaks(init, w, maxLosses, tier, a);
      if exists i :: 0 <= i < |bots| && PauseWanted(bots[i], w, maxLosses)
           && a == PauseRequest(bots[i], w, maxLosses, tier) {
        var i :| 0 <= i < |bots| && PauseWanted(bots[i], w, maxLosses)
                 && a == PauseRequest(bots[i], w, maxLosses, tier);
        if i < |init| {
          assert init[i] == bots[i];
        }
      }
      if exists i :: 0 <= i < |init| && PauseWanted(init[i], w, maxLosses)
           && a == PauseRequest(init[i], w, maxLosses, tier) {
        var i :| 0 <= i < |init| && PauseWanted(init[i], w, maxLosses)
                 && a == PauseRequest(init[i], w, maxLosses, tier);
        assert bots[i] == init[i];
      }
    }
  }

  /** The record an auto-approved pause is executed with. */
  function AutoPause(b: Bot, w: World, maxLosses: int): Action {
    Resolve(PauseRequest(b, w, maxLosses, Auto), AutoApproved, w.now, Resolver.Jarvis)
  }

  /** What the auto-approved pauses of a loss-streak pass do to the world. */
  function PauseEffects(config: seq<Bot>, bots: seq<Bot>, w: World, maxLosses: int): seq<Effect>
    decreases |bots|
  {
    if bots == [] then []
    else
      var init := PauseEffects(config, bots[..|bots| - 1], w, maxLosses);
      var b := bots[|bots| - 1];
      if PauseWanted(b, w, maxLosses)
      then init + ExecuteAction(AutoPause(b, w, maxLosses), config, w.env(b.name)).effects
      else init
  }

  /** An auto-approved pause writes the bot's kill switch with the reason
      "<streak>_consecutive_losses" when the file can be written. */
  lemma AutoPauseWritesKillSwitch(config: seq<Bot>, b: Bot, w: World, maxLosses: int)
    requires w.env(b.name).write.Ok?
    ensures var e := ExecuteAction(AutoPause(b, w, maxLosses), config, w.env(b.name));
      && e.result == Succeeded(Paused(KillFilePath(config, Some(b.name))))
      && e.effects == [WroteFile(KillFilePath(config, Some(b.name)),
                                 KillNote(PText(NatToString(Streak(w.losses(b.name))) + "_consecutive_losses")))]
  {
    assert HandlerFor(PauseType) == Some(Handler.PauseBot);
  }

  // ---------------------------------------------------------------------------
  // The approval history after a pass

  /** The record `submit_action` resolves at once: "blocked" by the system
      for a forbidden type, "auto_approved" by Jarvis for an auto type. A
      request that waits for the operator stays as it was built. */
  function Verdict(a: Action, tier: Tier, now: int): Action {
    match tier
    case Forbidden => Resolve(a, Blocked, now, System)
    case Auto => Resolve(a, AutoApproved, now, Resolver.Jarvis)
    case Approval => a
  }

  /** The history after one submission: a forbidden or auto-approved request
      is recorded at once and the last 200 entries kept; a request that
      waits for approval leaves the history alone. */
  function Recorded(h: seq<Action>, a: Action, tier: Tier, now: int): seq<Action> {
    if tier == Approval then h else Truncated(h + [Verdict(a, tier, now)])
  }

  /** The history after submitting `requests` in order. */
  function RecordedAll(h: seq<Action>, requests: seq<Action>, tier: Tier, now: int): seq<Action>
    decreases |requests|
  {
    if requests == [] then h
    else Recorded(RecordedAll(h, requests[..|requests| - 1], tier, now), requests[|requests| - 1], tier, now)
  }

  /** The resolved records of `requests`, in order. */
  function Verdicts(requests: seq<Action>, tier: Tier, now: int): (r: seq<Action>)
    ensures |r| == |requests|
    ensures forall i :: 0 <= i < |r| ==> r[i] == Verdict(requests[i], tier, now)
    decreases |requests|
  {
    if requests == [] then []
    else Verdicts(requests[..|requests| - 1], tier, now) + [Verdict(requests[|requests| - 1], tier, now)]
  }

  /** Saving after every append keeps what one save at the end keeps. */
  lemma TruncatedAppend(h: seq<Action>, a: Action)
    ensures Truncated(Truncated(h) + [a]) == Truncated(h + [a])
  {
    var t := Truncated(h);
    assert t + [a] == (h + [a])[|h| - |t|..];
  }

  /** A pass records its requests one save at a time; the history it leaves
      is the old history followed by the resolved requests, of which the
      last 200 entries are kept. A pass whose requests wait for approval
      leaves the history as it was. */
  lemma {:induction false} RecordedAllKeepsLatest(h: seq<Action>, requests: seq<Action>, tier: Tier, now: int)
    ensures tier == Approval ==> RecordedAll(h, requests, tier, now) == h
    ensures tier != Approval && requests != [] ==>
      RecordedAll(h, requests, tier, now) == Truncated(h + Verdicts(requests, tier, now))
    decreases |requests|
  {
    if requests != [] {
      var init := requests[..|requests| - 1];
      var v := Verdict(requests[|requests| - 1], tier, now);
      RecordedAllKeepsLatest(h, init, tier, now);
      if tier != Approval {
        var vs := Verdicts(init, tier, now);
        assert Verdicts(requests, tier, now) == vs + [v];
        assert RecordedAll(h, requests, tier, now) == Truncated(RecordedAll(h, init, tier, now) + [v]);
        if init == [] {
          assert h + (vs + [v]) == h + [v];
        } else {
          TruncatedAppend(h + vs, v);
          assert h + (vs + [v]) == (h + vs) + [v];
        }
      }
    }
  }

  /** One more request of a pass is recorded after those before it. */
  lemma RecordedAllStep(h: seq<Action>, requests: seq<Action>, a: Action, tier: Tier, now: int)
    ensures RecordedAll(h, requests + [a], tier, now) == Recorded(RecordedAll(h, requests, tier, now), a, tier, now)
  {
    assert (requests + [a])[..|requests|] == requests;
  }

  // ---------------------------------------------------------------------------
  // The health pass as a whole

  /** What a health pass changes: the stale-alert map, the approval queue,
      the approval history and the restart history. */
  datatype PassState = PassState(alerts: map<string, int>, queue: seq<Action>, history: seq<Action>,
                                 restarts: map<string, seq<Attempt>>)

  /** The state after the bot loop of `check_health` over `bs`: every bot's
      stale alert, in order; for every DEAD bot a restart request through
      the approval engine, queued, blocked or auto-approved by `tier`; and,
      when auto-approved, the restart itself. */
  function HealthPass(s: PassState, bs: seq<Bot>, report: map<string, HealthEntry>, w: World, tier: Tier,
                      p: RestartPolicy): PassState
  {
    var requests := RestartRequests(bs, report, w, tier);
    PassState(StaleAlerts(s.alerts, bs, report, w.now),
              s.queue + (if tier == Approval then requests else []),
              RecordedAll(s.history, requests, tier, w.now),
              if tier == Auto then RestartsAfter(s.restarts, bs, report, p, w) else s.restarts)
  }

  /** One bot's turn: a DEAD bot's restart request is submitted and, when
      auto-approved, the bot restarted; any other bot gets its stale step. */
  function BotTurn(s: PassState, b: Bot, report: map<string, HealthEntry>, w: World, tier: Tier,
                   p: RestartPolicy): PassState
  {
    var dead := IsDead(report, b.name);
    var request := RestartRequest(b.name, w, tier);
    PassState(StaleStep(s.alerts, report, b.name, w.now),
              s.queue + (if tier == Approval && dead then [request] else []),
              if dead then Recorded(s.history, request, tier, w.now) else s.history,
              if tier == Auto && dead then RestartedIn(s.restarts, b, p, w) else s.restarts)
  }

  /** The pass over one more bot is that bot's turn after the pass over the
      bots before it. */
  lemma HealthPassStep(s: PassState, bots: seq<Bot>, i: nat, report: map<string, HealthEntry>, w: World,
                       tier: Tier, p: RestartPolicy)
    requires i < |bots|
    ensures HealthPass(s, bots[..i + 1], report, w, tier, p)
      == BotTurn(HealthPass(s, bots[..i], report, w, tier, p), bots[i], report, w, tier, p)
  {
    AlertsAndRestartsStep(s, bots, i, report, w, tier, p);
    QueueAndHistoryStep(s, bots, i, report, w, tier, p);
  }

  /** The stale-alert and restart-history half of `HealthPassStep`. */
  lemma AlertsAndRestartsStep(s: PassState, bots: seq<Bot>, i: nat, report: map<string, HealthEntry>, w: World,
                    tier: Tier, p: RestartPolicy)
    requires i < |bots|
    ensures var after := BotTurn(HealthPass(s, bots[..i], report, w, tier, p), bots[i], report, w, tier, p);
      && HealthPass(s, bots[..i + 1], report, w, tier, p).alerts == after.alerts
      && HealthPass(s, bots[..i + 1], report, w, tier, p).restarts == after.restarts
  {
    assert bots[..i + 1][..i] == bots[..i];
  }

  /** The queue and history half of `HealthPassStep`. */
  lemma QueueAndHistoryStep(s: PassState, bots: seq<Bot>, i: nat, report: map<string, HealthEntry>, w: World,
                    tier: Tier, p: RestartPolicy)
    requires i < |bots|
    ensures var after := BotTurn(HealthPass(s, bots[..i], report, w, tier, p), bots[i], report, w, tier, p);
      && HealthPass(s, bots[..i + 1], report, w, tier, p).queue == after.queue
      && HealthPass(s, bots[..i + 1], report, w, tier, p).history == after.history
  {
    assert bots[..i + 1][..i] == bots[..i];
    var init := RestartRequests(bots[..i], report, w, tier);
    if IsDead(report, bots[i].name) {
      RecordedAllStep(s.history, init, RestartRequest(bots[i].name, w, tier), tier, w.now);
    } else {
      assert init + [] == init;
    }
  }

  // ---------------------------------------------------------------------------
  // The loss-streak pass as a whole

  /** What a loss-streak pass changes: the approval queue and history, and
      what the executor did to the world. */
  datatype LossState = LossState(queue: seq<Action>, history: seq<Action>, effects: seq<Effect>)

  /** The state after the loop of `check_loss_streaks` over `bs`: a pause
      request for every enabled bot whose streak reached the maximum, queued,
      blocked or auto-approved by `tier`, and the auto-approved ones executed
      at once. */
  function LossPass(s: LossState, config: seq<Bot>, bs: seq<Bot>, w: World, maxLosses: int, tier: Tier)
    : LossState
  {
    var requests := PauseRequests(bs, w, maxLosses, tier);
    LossState(s.queue + (if tier == Approval then requests else []),
              RecordedAll(s.history, requests, tier, w.now),
              s.effects + (if tier == Auto then PauseEffects(config, bs, w, maxLosses) else []))
  }

  /** One bot's turn: a pause request when the bot is enabled and its streak
      reached the maximum, executed at once when auto-approved. */
  function LossTurn(s: LossState, config: seq<Bot>, b: Bot, w: World, maxLosses: int, tier: Tier): LossState {
    var wanted := PauseWanted(b, w, maxLosses);
    var request := PauseRequest(b, w, maxLosses, tier);
    LossState(s.queue + (if tier == Approval && wanted then [request] else []),
              if wanted then Recorded(s.history, request, tier, w.now) else s.history,
              s.effects + (if tier == Auto && wanted
                           then ExecuteAction(AutoPause(b, w, maxLosses), config, w.env(b.name)).effects
                           else []))
  }

  /** A turn adds its effects after those already done. */
  lemma TurnEffectsAppend(s: LossState, config: seq<Bot>, b: Bot, w: World, maxLosses: int, tier: Tier)
    ensures LossTurn(s, config, b, w, maxLosses, tier)
      == var t := LossTurn(LossState(s.queue, s.history, []), config, b, w, maxLosses, tier);
         LossState(t.queue, t.history, s.effects + t.effects)
  {
  }

  /** The pass over one more bot is that bot's turn after the pass over the
      bots before it. */
  lemma LossPassStep(s: LossState, config: seq<Bot>, bots: seq<Bot>, i: nat, w: World, maxLosses: int, tier: Tier)
    requires i < |bots|
    ensures LossPass(s, config, bots[..i + 1], w, maxLosses, tier)
      == LossTurn(LossPass(s, config, bots[..i], w, maxLosses, tier), config, bots[i], w, maxLosses, tier)
  {
    PauseStep(config, bots, i, w, maxLosses, tier);
    LossPassQueueAndHistoryStep(s, config, bots, i, w, maxLosses, tier);
    LossPassEffectsStep(s, config, bots, i, w, maxLosses, tier);
  }

  /** The queue and history half of `LossPassStep`. */
  lemma LossPassQueueAndHistoryStep(s: LossState, config: seq<Bot>, bots: seq<Bot>, i: nat, w: World,
                                    maxLosses: int, tier: Tier)
    requires i < |bots|
    ensures var after := LossTurn(LossPass(s, config, bots[..i], w, maxLosses, tier), config, bots[i], w, maxLosses, tier);
      && LossPass(s, config, bots[..i + 1], w, maxLosses, tier).queue == after.queue
      && LossPass(s, config, bots[..i + 1], w, maxLosses, tier).history == after.history
  {
    var b := bots[i];
    var init := PauseRequests(bots[..i], w, maxLosses, tier);
    PauseStep(config, bots, i, w, maxLosses, tier);
    if PauseWanted(b, w, maxLosses) {
      RecordedAllStep(s.history, init, PauseRequest(b, w, maxLosses, tier), tier, w.now);
    } else {
      assert init + [] == init;
    }
  }

  /** The effects half of `LossPassStep`. */
  lemma LossPassEffectsStep(s: LossState, config: seq<Bot>, bots: seq<Bot>, i: nat, w: World,
                            maxLosses: int, tier: Tier)
    requires i < |bots|
    ensures LossPass(s, config, bots[..i + 1], w, maxLosses, tier).effects
      == LossTurn(LossPass(s, config, bots[..i], w, maxLosses, tier), config, bots[i], w, maxLosses, tier).effects
  {
    var b := bots[i];
    var done := PauseEffects(config, bots[..i], w, maxLosses);
    PauseStep(config, bots, i, w, maxLosses, tier);
    if PauseWanted(b, w, maxLosses) {
      var e := ExecuteAction(AutoPause(b, w, maxLosses), config, w.env(b.name)).effects;
      assert s.effects + (done + e) == (s.effects + done) + e;
    } else {
      assert done + [] == done;
    }
  }

  /** The requests and effects of one more bot come after those of the bots
      before it. */
  lemma PauseStep(config: seq<Bot>, bots: seq<Bot>, i: nat, w: World, maxLosses: int, tier: Tier)
    requires i < |bots|
    ensures PauseRequests(bots[..i + 1], w, maxLosses, tier)
      == PauseRequests(bots[..i], w, maxLosses, tier)
         + (if PauseWanted(bots[i], w, maxLosses) then [PauseRequest(bots[i], w, maxLosses, tier)] else [])
    ensures PauseEffects(config, bots[..i + 1], w, maxLosses)
      == PauseEffects(config, bots[..i], w, maxLosses)
         + (if PauseWanted(bots[i], w, maxLosses)
            then ExecuteAction(AutoPause(bots[i], w, maxLosses), config, w.env(bots[i].name)).effects else [])
  {
    assert bots[..i + 1][..i] == bots[..i];
    assert PauseRequests(bots[..i], w, maxLosses, tier) + [] == PauseRequests(bots[..i], w, maxLosses, tier);
    assert PauseEffects(config, bots[..i], w, maxLosses) + [] == PauseEffects(config, bots[..i], w, maxLosses);
  }

  // ---------------------------------------------------------------------------
  // Draining approved actions

  /** The ids of the approved actions of a history. */
  function ApprovedIds(h: seq<Action>): set<nat>
    decreases |h|
  {
    if h == [] then {}
    else ApprovedIds(h[..|h| - 1]) + (if h[|h| - 1].status == Approved then {h[|h| - 1].id} else {})
  }

  /** The environment an action is executed in: that of its bot. */
  function EnvFor(a: Action, w: World): Env {
    w.env(a.bot.GetOr(""))
  }

  /** What draining the history does to the world: each approved action
      whose id was not executed before runs once, in history order. */
  function DrainEffects(h: seq<Action>, done: set<nat>, bots: seq<Bot>, w: World): seq<Effect>
    decreases |h|
  {
    if h == [] then []
    else
      var init := h[..|h| - 1];
      var a := h[|h| - 1];
      DrainEffects(init, done, bots, w)
        + (if a.status == Approved && a.id !in done + ApprovedIds(init)
           then ExecuteAction(a, bots, EnvFor(a, w)).effects else [])
  }

  /** One more history entry is executed exactly when it is approved and
      its id was neither executed before nor approved earlier in the
      history. */
  lemma DrainStep(h: seq<Action>, i: nat, done: set<nat>, bots: seq<Bot>, w: World)
    requires i < |h|
    ensures DrainEffects(h[..i + 1], done, bots, w)
      == DrainEffects(h[..i], done, bots, w)
         + (if h[i].status == Approved && h[i].id !in done + ApprovedIds(h[..i])
            then ExecuteAction(h[i], bots, EnvFor(h[i], w)).effects else [])
    ensures ApprovedIds(h[..i + 1]) == ApprovedIds(h[..i]) + (if h[i].status == Approved then {h[i].id} else {})
  {
    assert h[..i + 1][..i] == h[..i];
  }

  /** Draining again executes nothing: once every approved id is recorded as
      executed, a drain of the same history has no effect. */
  lemma {:induction false} DrainIsIdempotent(h: seq<Action>, done: set<nat>, bots: seq<Bot>, w: World)
    requires ApprovedIds(h) <= done
    ensures DrainEffects(h, done, bots, w) == []
    decreases |h|
  {
    if h != [] {
      DrainIsIdempotent(h[..|h| - 1], done, bots, w);
    }
  }

  /** The selection `process_approved_actions` makes among the actions it is
      given: those whose status is "approved", in order. */
  function ApprovedAmong(actions: seq<Action>): seq<Action>
    decreases |actions|
  {
    if actions == [] then []
    else
      var last := actions[|actions| - 1];
      ApprovedAmong(actions[..|actions| - 1]) + (if last.status == Approved then [last] else [])
  }

  /** The selection holds exactly the approved actions given, in order:
      every one it holds is approved and among them, and every approved one
      given is in it. */
  lemma {:induction false} ApprovedAmongSelects(actions: seq<Action>)
    ensures forall a :: a in ApprovedAmong(actions) <==> a in actions && a.status == Approved
    decreases |actions|
  {
    if actions != [] {
      var init := actions[..|actions| - 1];
      ApprovedAmongSelects(init);
      assert actions == init + [actions[|actions| - 1]];
    }
  }

  /** Among actions that are all pending the selection is empty. */
  lemma {:induction false} NothingApprovedAmongPending(actions: seq<Action>)
    requires AllPending(actions)
    ensures ApprovedAmong(actions) == []
    decreases |actions|
  {
    if actions != [] {
      NothingApprovedAmongPending(actions[..|actions| - 1]);
    }
  }

  /** What the loop of `process_approved_actions` does to the world: the
      execution of each approved action, in order. When it selects nothing
      it does nothing. */
  function ApprovedEffects(actions: seq<Action>, bots: seq<Bot>, w: World): (r: seq<Effect>)
    ensures ApprovedAmong(actions) == [] ==> r == []
    decreases |actions|
  {
    if actions == [] then []
    else
      var a := actions[|actions| - 1];
      ApprovedEffects(actions[..|actions| - 1], bots, w)
        + (if a.status == Approved then ExecuteAction(a, bots, EnvFor(a, w)).effects else [])
  }

  /** One more action extends the selection by that action exactly when it
      is approved. */
  lemma ApprovedAmongStep(actions: seq<Action>, i: nat)
    requires i < |actions|
    ensures ApprovedAmong(actions[..i + 1])
      == ApprovedAmong(actions[..i]) + (if actions[i].status == Approved then [actions[i]] else [])
    ensures ApprovedAmong(actions[..i + 1]) == []
      <==> ApprovedAmong(actions[..i]) == [] && actions[i].status != Approved
  {
    assert actions[..i + 1][..i] == actions[..i];
    var s := ApprovedAmong(actions[..i]);
    if actions[i].status == Approved {
      assert |s + [actions[i]]| > 0;
    }
  }

  /** One more action adds the effects of executing it exactly when it is
      approved. */
  lemma ApprovedEffectsStep(actions: seq<Action>, i: nat, bots: seq<Bot>, w: World)
    requires i < |actions|
    ensures ApprovedEffects(actions[..i + 1], bots, w)
      == ApprovedEffects(actions[..i], bots, w)
         + (if actions[i].status == Approved
            then ExecuteAction(actions[i], bots, EnvFor(actions[i], w)).effects else [])
  {
    assert actions[..i + 1][..i] == actions[..i];
  }

  /** The discrepancy: an approved action sits in the history, yet the
      selection the loop makes from `get_pending_actions()` is empty, so the
      action is never handed to the executor. */
  lemma ApprovedActionNeverSelected(q: seq<Action>, h: seq<Action>)
    requires h != [] && h[|h| - 1].status == Approved
    ensures ApprovedAmong(FilterPending(q)) == []
    ensures ApprovedAmong(h) != [] && h[|h| - 1].id in ApprovedIds(h)
  {
    NothingApprovedAmongPending(FilterPending(q));
  }

  // ---------------------------------------------------------------------------
  // Operator commands

  datatype Command =
    | HealthCommand
    | PauseCommand(bot: string)
    | ResumeCommand(bot: string)
    | AnalyzeCommand
    | BudgetCommand
    | FuturesCommand
    | FuturesStatsCommand
    | WeeklyCommand
    | Question(text: string)

  /** `cmd.split(" ", 1)[1]`: what follows the first space. */
  function AfterFirstSpace(cmd: string): string {
    cmd[FindChar(cmd, ' ') + 1..]
  }

  /** `handle_user_command`'s dispatch on `command_text.strip().lower()`. */
  function ParseCommand(text: string): Command {
    Dispatch(Lower(Strip(text)), text)
  }

  /** The if-chain on the normalized command `cmd`; `text` is what the
      operator typed. */
  function Dispatch(cmd: string, text: string): Command {
    if cmd == "status" || cmd == "health" then HealthCommand
    else if StartsWith(cmd, "pause ") then PauseCommand(Strip(AfterFirstSpace(cmd)))
    else if StartsWith(cmd, "resume ") then ResumeCommand(Strip(AfterFirstSpace(cmd)))
    else if cmd == "analyze" || cmd == "analysis" then AnalyzeCommand
    else if cmd == "budget" then BudgetCommand
    else if cmd == "futures" || cmd == "premarket" || cmd == "bias" then FuturesCommand
    else if cmd == "futures stats" then FuturesStatsCommand
    else if cmd == "weekly" then WeeklyCommand
    else Question(text)
  }

  /** A non-empty name with no whitespace at either end. */
  predicate Trimmed(bot: string) {
    bot != [] && bot[0] !in Whitespace && bot[|bot| - 1] !in Whitespace
  }

  /** A bot name as it reads after lowering and stripping: trimmed and
      lower-case. */
  predicate CanonicalName(bot: string) {
    Trimmed(bot) && Lower(bot) == bot
  }

  predicate AllWhitespace(s: string) {
    forall i :: 0 <= i < |s| ==> s[i] in Whitespace
  }

  /** Lowering works character by character, so it distributes over
      concatenation. */
  lemma LowerAppend(a: string, b: string)
    ensures Lower(a + b) == Lower(a) + Lower(b)
  {
    var l := Lower(a + b);
    forall i | 0 <= i < |a + b| ensures l[i] == (Lower(a) + Lower(b))[i] {
      if i < |a| {
        assert (a + b)[i] == a[i];
      } else {
        assert (a + b)[i] == b[i - |a|];
      }
    }
  }

  /** A character that lowers to 'p' or 'r' is not whitespace. */
  lemma LowersToLetter(c: char, k: char)
    requires LowerChar(c) == k && (k == 'p' || k == 'r')
    ensures c !in Whitespace
  {
    assert c == 'p' || c == 'P' || c == 'r' || c == 'R';
  }

  /** Whitespace around a text whose ends are not whitespace is stripped
      away exactly. */
  lemma StripPadded(pad1: string, word: string, bot: string, pad2: string)
    requires AllWhitespace(pad1) && AllWhitespace(pad2)
    requires word != [] && word[0] !in Whitespace
    requires bot != [] && bot[|bot| - 1] !in Whitespace
    ensures Strip(pad1 + word + bot + pad2) == word + bot
  {
    var y := word + bot;
    assert y[0] !in Whitespace;
    assert y[|y| - 1] !in Whitespace;
    StripCharsBetween(pad1, y, pad2, Whitespace);
    assert pad1 + word + bot + pad2 == pad1 + y + pad2;
  }

  /** A keyword typed in any case, followed by a canonical name and padded
      with whitespace, lowers and strips to the lower-case keyword and the
      name. */
  lemma CommandTextNormalized(pad1: string, word: string, kw: string, bot: string, pad2: string)
    requires AllWhitespace(pad1) && AllWhitespace(pad2)
    requires Lower(word) == kw && kw != [] && (kw[0] == 'p' || kw[0] == 'r')
    requires CanonicalName(bot)
    ensures Lower(Strip(pad1 + word + bot + pad2)) == kw + bot
  {
    assert |word| == |kw|;
    LowersToLetter(word[0], kw[0]);
    StripPadded(pad1, word, bot, pad2);
    LowerAppend(word, bot);
  }

  /** The bot named after a keyword whose only space is its last character. */
  lemma ArgumentAfterKeyword(kw: string, bot: string)
    requires |kw| >= 1 && kw[|kw| - 1] == ' '
    requires forall j :: 0 <= j < |kw| - 1 ==> kw[j] != ' '
    requires Trimmed(bot)
    ensures Strip(AfterFirstSpace(kw + bot)) == bot
  {
    var s := kw + bot;
    var r := FindChar(s, ' ');
    assert s[|kw| - 1] == ' ';
    assert forall j :: 0 <= j < |kw| - 1 ==> s[j] != ' ';
    assert r == |kw| - 1;
    assert s[r + 1..] == bot;
    StripCharsBetween([], bot, [], Whitespace);
    assert [] + bot + [] == bot;
  }

  /** The normalized text "pause <bot>" dispatches to a pause of that bot. */
  lemma DispatchPause(bot: string, text: string)
    requires Trimmed(bot)
    ensures Dispatch("pause " + bot, text) == PauseCommand(bot)
  {
    var cmd := "pause " + bot;
    assert cmd[0] == 'p';
    assert cmd != "status" && cmd != "health";
    assert StartsWith(cmd, "pause ") by {
      assert cmd[..6] == "pause ";
    }
    ArgumentAfterKeyword("pause ", bot);
  }

  /** The normalized text "resume <bot>" dispatches to a resume of that bot. */
  lemma DispatchResume(bot: string, text: string)
    requires Trimmed(bot)
    ensures Dispatch("resume " + bot, text) == ResumeCommand(bot)
  {
    var cmd := "resume " + bot;
    assert cmd[0] == 'r';
    assert cmd != "status" && cmd != "health";
    assert !StartsWith(cmd, "pause ") by {
      assert |cmd| >= 6 ==> cmd[..6][0] == 'r';
    }
    assert StartsWith(cmd, "resume ") by {
      assert cmd[..7] == "resume ";
    }
    ArgumentAfterKeyword("resume ", bot);
  }

  /** `pause <bot>`, typed in any case and padded with whitespace, names the
      bot it was typed with. */
  lemma PauseCommandRoundTrip(pad1: string, word: string, bot: string, pad2: string)
    requires AllWhitespace(pad1) && AllWhitespace(pad2)
    requires Lower(word) == "pause "
    requires CanonicalName(bot)
    ensures ParseCommand(pad1 + word + bot + pad2) == PauseCommand(bot)
  {
    CommandTextNormalized(pad1, word, "pause ", bot, pad2);
    DispatchPause(bot, pad1 + word + bot + pad2);
  }

  /** `resume <bot>`, typed in any case and padded with whitespace, names
      the bot it was typed with. */
  lemma ResumeCommandRoundTrip(pad1: string, word: string, bot: string, pad2: string)
    requires AllWhitespace(pad1) && AllWhitespace(pad2)
    requires Lower(word) == "resume "
    requires CanonicalName(bot)
    ensures ParseCommand(pad1 + word + bot + pad2) == ResumeCommand(bot)
  {
    CommandTextNormalized(pad1, word, "resume ", bot, pad2);
    DispatchResume(bot, pad1 + word + bot + pad2);
  }

  // ---------------------------------------------------------------------------
  // Scheduling

  /** The four `last_*` timestamps of the periodic checks. */
  datatype Timers = Timers(health: int, settlement: int, stats: int, analysis: int)

  /** The points of one cycle at which an exception can be raised, in order. */
  datatype Stage = HealthStage | SettlementStage | StatsStage | AnalysisStage | DrainStage | SleepStage

  function Rank(s: Stage): nat {
    match s
    case HealthStage => 0
    case SettlementStage => 1
    case StatsStage => 2
    case AnalysisStage => 3
    case DrainStage => 4
    case SleepStage => 5
  }

  /** How a cycle ends: normally, by KeyboardInterrupt, or by another
      exception, each raised at a stage. */
  datatype Fault = NoFault | Interrupt(at: Stage) | Failure(at: Stage, message: string)

  datatype Tick = Tick(world: World, fault: Fault)

  /** The number of ticks before the first one that carries a
      KeyboardInterrupt; all of them when none does. */
  function QuietTicks(ticks: seq<Tick>): (n: nat)
    ensures n <= |ticks|
    ensures forall k :: 0 <= k < n ==> !ticks[k].fault.Interrupt?
    ensures n < |ticks| ==> ticks[n].fault.Interrupt?
  {
    if ticks == [] || ticks[0].fault.Interrupt? then 0 else 1 + QuietTicks(ticks[1..])
  }

  /** The cycle gets past `s` without an exception. */
  predicate Passes(f: Fault, s: Stage) {
    f.NoFault? || Rank(s) < Rank(f.at)
  }

  predicate Due(last: int, interval: int, now: int) {
    now - last >= interval
  }

  /** A check's timestamp after a cycle: stamped with `now` when it was due
      and completed. */
  function TimerAfter(last: int, interval: int, now: int, completed: bool): int {
    if Due(last, interval, now) && completed then now else last
  }

  predicate PositiveIntervals(s: Settings) {
    s.heartbeatInterval > 0 && s.settlementInterval > 0 && s.statsInterval > 0 && s.analysisInterval > 0
  }

  /** The timers after one cycle. */
  function NextTimers(t: Timers, s: Settings, now: int, f: Fault): Timers {
    Timers(TimerAfter(t.health, s.heartbeatInterval, now, Passes(f, HealthStage)),
           TimerAfter(t.settlement, s.settlementInterval, now, Passes(f, SettlementStage)),
           TimerAfter(t.stats, s.statsInterval, now, Passes(f, StatsStage)),
           TimerAfter(t.analysis, s.analysisInterval, now, Passes(f, AnalysisStage)))
  }

  /** Each timer either keeps its value or becomes `now`; it moves only when
      its check was due; a check raising stops the later ones; and a cycle
      without exception leaves no check overdue. */
  lemma NextTimersMoveWhenDue(t: Timers, s: Settings, now: int, f: Fault)
    ensures var r := NextTimers(t, s, now, f);
      && r.health in {t.health, now} && r.settlement in {t.settlement, now}
      && r.stats in {t.stats, now} && r.analysis in {t.analysis, now}
      && (r.health != t.health ==> Due(t.health, s.heartbeatInterval, now) && Passes(f, HealthStage))
      && (r.settlement != t.settlement ==>
            Due(t.settlement, s.settlementInterval, now) && Passes(f, SettlementStage))
      && (r.stats != t.stats ==> Due(t.stats, s.statsInterval, now) && Passes(f, StatsStage))
      && (r.analysis != t.analysis ==> Due(t.analysis, s.analysisInterval, now) && Passes(f, AnalysisStage))
      && (f.NoFault? && PositiveIntervals(s) ==>
            && !Due(r.health, s.heartbeatInterval, now) && !Due(r.settlement, s.settlementInterval, now)
            && !Due(r.stats, s.statsInterval, now) && !Due(r.analysis, s.analysisInterval, now))
  {
  }

  /** With positive intervals a check runs at most once per interval: after
      a cycle at `t1` ran the health check, a cycle less than one interval
      later does not run it again, and likewise for the other three. */
  lemma AtMostOncePerInterval(t: Timers, s: Settings, t1: int, f1: Fault, t2: int, f2: Fault)
    requires PositiveIntervals(s)
    requires 0 <= t2 - t1
    ensures var r1 := NextTimers(t, s, t1, f1);
      var r2 := NextTimers(r1, s, t2, f2);
      && (r1.health == t1 && t2 - t1 < s.heartbeatInterval ==> r2.health == t1)
      && (r1.settlement == t1 && t2 - t1 < s.settlementInterval ==> r2.settlement == t1)
      && (r1.stats == t1 && t2 - t1 < s.statsInterval ==> r2.stats == t1)
      && (r1.analysis == t1 && t2 - t1 < s.analysisInterval ==> r2.analysis == t1)
  {
  }

  // ---------------------------------------------------------------------------
  // The daemon object

  class Jarvis {
    /** `config["bots"]`, in configuration order. */
    const bots: seq<Bot>
    const settings: Settings
    const approvals: ApprovalSystem
    const watchdog: Watchdog

    var running: bool
    var lastHealthCheck: int
    var lastSettlementCheck: int
    var lastStatsTime: int
    var lastAnalysisTime: int
    var botHealth: map<string, HealthEntry>
    var chatLog: seq<ChatEntry>
    /** bot name -> time of its last stale alert. */
    var lastStaleAlert: map<string, int>
    /** Ids of the approved actions already handed to the executor. */
    var executedIds: set<nat>

    ghost predicate Valid()
      reads this`chatLog, approvals
    {
      DistinctNames(bots) && |chatLog| <= ChatLimit && approvals.Valid()
    }

    function TimersNow(): Timers
      reads this`lastHealthCheck, this`lastSettlementCheck, this`lastStatsTime, this`lastAnalysisTime
    {
      Timers(lastHealthCheck, lastSettlementCheck, lastStatsTime, lastAnalysisTime)
    }

    /** `bot_health` is a fresh report: one entry per configured bot, each
        the one `get_full_health_report` computes for it. */
    ghost predicate Reported(w: World)
      reads this`botHealth
    {
      && botHealth.Keys == Names(bots)
      && forall i :: 0 <= i < |bots| ==>
           botHealth[bots[i].name] == EntryFor(bots[i].config, w.probe(bots[i].name), w.now, settings.staleThreshold)
    }

    /** The four values a health pass changes, now. */
    function PassNow(): PassState
      reads this`lastStaleAlert, approvals, watchdog
    {
      PassState(lastStaleAlert, approvals.queue, approvals.history, watchdog.restartHistory)
    }

    /** The state `check_health` leaves, from the values `s` it started
        with: a fresh report, then the bot loop over every configured bot. */
    ghost predicate HealthChecked(w: World, s: PassState)
      reads this`botHealth, this`lastStaleAlert, approvals, watchdog
    {
      && Reported(w)
      && PassNow() == HealthPass(s, bots, botHealth, w, PermissionTier(approvals.permissions, RestartType),
                                 settings.restartPolicy)
    }

    /** The state `check_loss_streaks` leaves, given the queue and approval
        history it started from, and what it did to the world. */
    ghost predicate LossesChecked(w: World, queue: seq<Action>, history: seq<Action>, effects: seq<Effect>)
      reads approvals
    {
      LossState(approvals.queue, approvals.history, effects)
        == LossPass(LossState(queue, history, []), bots, bots, w, settings.maxConsecutiveLosses,
                    PermissionTier(approvals.permissions, PauseType))
    }

    /** `__init__`'s state: running, every timer at 0, nothing logged. */
    constructor (bots: seq<Bot>, settings: Settings, approvals: ApprovalSystem,
                 watchdog: Watchdog)
      requires DistinctNames(bots) && approvals.Valid()
      ensures Valid()
      ensures this.bots == bots && this.settings == settings
      ensures this.approvals == approvals && this.watchdog == watchdog
      ensures running && TimersNow() == Timers(0, 0, 0, 0)
      ensures botHealth == map[] && chatLog == [] && lastStaleAlert == map[] && executedIds == {}
    {
      this.bots := bots;
      this.settings := settings;
      this.approvals := approvals;
      this.watchdog := watchdog;
      running := true;
      lastHealthCheck, lastSettlementCheck, lastStatsTime, lastAnalysisTime := 0, 0, 0, 0;
      botHealth := map[];
      chatLog := [];
      lastStaleAlert := map[];
      executedIds := {};
    }

    /** `_log_chat`: append, then keep the last 200 entries. */
    method LogChat(e: ChatEntry)
      modifies this`chatLog
      ensures chatLog == PyTail(old(chatLog) + [e], ChatLimit)
      ensures |chatLog| <= ChatLimit
    {
      chatLog := chatLog + [e];
      if |chatLog| > ChatLimit {
        chatLog := chatLog[|chatLog| - ChatLimit..];
      }
    }

    /** The DEAD branch of `check_health`: the restart request goes through
        the approval engine and the restart runs only when it is
        auto-approved. */
    method RequestRestart(b: Bot, w: World)
      requires Valid()
      modifies this`chatLog, approvals, watchdog
      ensures Valid()
      ensures var tier := PermissionTier(approvals.permissions, RestartType);
        && approvals.queue == old(approvals.queue) + (if tier == Approval then [RestartRequest(b.name, w, Approval)] else [])
        && approvals.history == Recorded(old(approvals.history), RestartRequest(b.name, w, tier), tier, w.now)
        && watchdog.restartHistory == (if tier == Auto
                                       then RestartedIn(old(watchdog.restartHistory), b, settings.restartPolicy, w)
                                       else old(watchdog.restartHistory))
    {
      LogChat(ChatEntry(w.now, FromWatchdog, BotDown(b.name), Error));
      var status, action := approvals.SubmitAction(
        RestartType, "Restart " + b.name + " - process not found", "Screen session not detected",
        Some(b.name), None, w.restartId(b.name), w.now);
      if status == AutoApproved {
        var r := watchdog.RestartBot(b.name, b.config, settings.restartPolicy, w.now, w.restart(b.name));
        if r.success {
          LogChat(ChatEntry(w.now, FromJarvis, RestartSucceeded(b.name), Success));
        } else {
          LogChat(ChatEntry(w.now, FromJarvis, RestartFailed(r.reason), Error));
        }
      }
    }

    /** The STALE branch of `check_health`: alert, and record the time, only
        when the last alert is at least 300 seconds old. */
    method StaleCheck(name: string, staleSeconds: Option<int>, now: int)
      requires Valid()
      modifies this`lastStaleAlert, this`chatLog
      ensures Valid()
      ensures lastStaleAlert == if now - AlertGet(old(lastStaleAlert), name) >= StaleAlertGap
                                then old(lastStaleAlert)[name := now] else old(lastStaleAlert)
    {
      if now - AlertGet(lastStaleAlert, name) >= StaleAlertGap {
        LogChat(ChatEntry(now, FromWatchdog, StaleAlert(name, staleSeconds), Warning));
        lastStaleAlert := lastStaleAlert[name := now];
      }
    }

    /** One bot's turn in `check_health`; disabled bots are skipped. */
    method CheckBot(b: Bot, w: World)
      requires Valid() && b.name in botHealth
      modifies this`lastStaleAlert, this`chatLog, approvals, watchdog
      ensures Valid()
      ensures PassNow() == BotTurn(old(PassNow()), b, botHealth, w, PermissionTier(approvals.permissions, RestartType),
                                   settings.restartPolicy)
    {
      var entry := botHealth[b.name];
      if IsDead(botHealth, b.name) {
        RequestRestart(b, w);
      } else if IsStale(botHealth, b.name) {
        StaleCheck(b.name, entry.database.staleSeconds, w.now);
      }
    }

    /** The bot loop of `check_health`, over the report in `bot_health`. */
    method CheckEachBot(w: World)
      requires Valid() && Reported(w)
      modifies this`lastStaleAlert, this`chatLog, approvals, watchdog
      ensures Valid()
      ensures HealthChecked(w, old(PassNow()))
    {
      var tier := PermissionTier(approvals.permissions, RestartType);
      var i := 0;
      while i < |bots|
        invariant 0 <= i <= |bots| && Valid()
        invariant PassNow() == HealthPass(old(PassNow()), bots[..i], botHealth, w, tier, settings.restartPolicy)
      {
        assert bots[i] in bots;
        HealthPassStep(old(PassNow()), bots, i, botHealth, w, tier, settings.restartPolicy);
        CheckBot(bots[i], w);
        i := i + 1;
      }
      assert bots[..|bots|] == bots;
    }

    /** `check_health`: a fresh report, then every bot in order. A DEAD bot's
        restart request goes through the approval engine and the restart runs
        only when the request is auto-approved; a STALE bot is alerted about
        at most once per 300 seconds. */
    method CheckHealth(w: World)
      requires Valid()
      modifies this`botHealth, this`lastStaleAlert, this`chatLog, approvals, watchdog
      ensures Valid()
      ensures HealthChecked(w, old(PassNow()))
    {
      botHealth := watchdog.FullHealthReport(bots, w.probe, w.now, settings.staleThreshold);
      CheckEachBot(w);
    }

    /** One bot's turn in `check_loss_streaks`. */
    method CheckBotLosses(b: Bot, w: World) returns (effects: seq<Effect>)
      requires Valid()
      modifies this`chatLog, approvals
      ensures Valid()
      ensures LossState(approvals.queue, approvals.history, effects)
        == LossTurn(LossState(old(approvals.queue), old(approvals.history), []), bots, b, w,
                    settings.maxConsecutiveLosses, PermissionTier(approvals.permissions, PauseType))
    {
      effects := [];
      if !b.config.enabled.GetOr(false) {
        return;
      }
      var streak := Analyst.DetectLossStreak(w.losses(b.name));
      if streak >= settings.maxConsecutiveLosses {
        effects := PauseOnStreak(b, w, streak);
      }
    }

    /** The body of `if streak >= max_losses` in `check_loss_streaks`: the
        pause request is submitted and, when auto-approved, executed at once. */
    method PauseOnStreak(b: Bot, w: World, streak: nat) returns (effects: seq<Effect>)
      requires Valid() && PauseWanted(b, w, settings.maxConsecutiveLosses) && streak == Streak(w.losses(b.name))
      modifies this`chatLog, approvals
      ensures Valid()
      ensures var tier := PermissionTier(approvals.permissions, PauseType);
        var request := PauseRequest(b, w, settings.maxConsecutiveLosses, tier);
        && approvals.queue == old(approvals.queue) + (if tier == Approval then [request] else [])
        && approvals.history == Recorded(old(approvals.history), request, tier, w.now)
        && effects == (if tier == Auto
                       then ExecuteAction(AutoPause(b, w, settings.maxConsecutiveLosses), bots, w.env(b.name)).effects
                       else [])
    {
      effects := [];
      var maxLosses := settings.maxConsecutiveLosses;
      LogChat(ChatEntry(w.now, FromAnalyst, LossStreak(b.name, streak), Error));
      var status, action := approvals.SubmitAction(
        PauseType,
        "Pause " + b.name + " - " + NatToString(streak) + " consecutive losses",
        "Safety rail: " + NatToString(streak) + " losses >= " + IntToString(maxLosses),
        Some(b.name),
        Some(map["reason" := PText(NatToString(streak) + "_consecutive_losses"), "streak" := PInt(streak)]),
        w.pauseId(b.name), w.now);
      if status == AutoApproved {
        var run := ExecuteAction(action, bots, w.env(b.name));
        effects := run.effects;
        if run.result.Succeeded? {
          LogChat(ChatEntry(w.now, FromJarvis, PausedOnStreak(b.name, streak), Warning));
        }
      }
    }

    /** `check_loss_streaks`: a pause request for every enabled bot whose
        streak reached the maximum, executed at once only when the engine
        auto-approves it. */
    method CheckLossStreaks(w: World) returns (effects: seq<Effect>)
      requires Valid()
      modifies this`chatLog, approvals
      ensures Valid()
      ensures LossesChecked(w, old(approvals.queue), old(approvals.history), effects)
    {
      var tier := PermissionTier(approvals.permissions, PauseType);
      effects := [];
      var i := 0;
      while i < |bots|
        invariant 0 <= i <= |bots| && Valid()
        invariant LossState(approvals.queue, approvals.history, effects)
          == LossPass(LossState(old(approvals.queue), old(approvals.history), []), bots, bots[..i], w,
                      settings.maxConsecutiveLosses, tier)
      {
        LossPassStep(LossState(old(approvals.queue), old(approvals.history), []), bots, bots, i, w,
                     settings.maxConsecutiveLosses, tier);
        ghost var before := LossState(approvals.queue, approvals.history, effects);
        var e := CheckBotLosses(bots[i], w);
        TurnEffectsAppend(before, bots, bots[i], w, settings.maxConsecutiveLosses, tier);
        effects := effects + e;
        i := i + 1;
      }
      assert bots[..|bots|] == bots;
    }

    /** The body of the drain for one selected action: the executor runs it
        in its bot's environment and the chat records it. */
    method ExecuteAndLog(a: Action, w: World) returns (effects: seq<Effect>)
      modifies this`chatLog
      ensures effects == ExecuteAction(a, bots, EnvFor(a, w)).effects
      ensures chatLog == PyTail(old(chatLog) + [ChatEntry(w.now, FromJarvis, ExecutedAction(a.description), Success)], ChatLimit)
      ensures |chatLog| <= ChatLimit
    {
      var e := ExecuteAction(a, bots, EnvFor(a, w));
      effects := e.effects;
      LogChat(ChatEntry(w.now, FromJarvis, ExecutedAction(a.description), Success));
    }

    /** The loop of `process_approved_actions` over a list of actions: each
        one whose status is "approved" is executed and logged. */
    method ExecuteApprovedAmong(actions: seq<Action>, w: World) returns (effects: seq<Effect>)
      modifies this`chatLog
      ensures effects == ApprovedEffects(actions, bots, w)
      ensures ApprovedAmong(actions) == [] ==> chatLog == old(chatLog)
    {
      effects := [];
      var i := 0;
      while i < |actions|
        invariant 0 <= i <= |actions|
        invariant effects == ApprovedEffects(actions[..i], bots, w)
        invariant ApprovedAmong(actions[..i]) == [] ==> chatLog == old(chatLog)
      {
        var a := actions[i];
        ApprovedAmongStep(actions, i);
        ApprovedEffectsStep(actions, i, bots, w);
        if a.status == Approved {
          var e := ExecuteAndLog(a, w);
          effects := effects + e;
        }
        i := i + 1;
      }
      assert actions[..|actions|] == actions;
    }

    /** `process_approved_actions` as written: it runs that loop over
        `get_pending_actions()`, which holds only pending actions, so it
        executes nothing and logs nothing. */
    method ProcessApprovedActionsAsWritten(w: World) returns (effects: seq<Effect>)
      modifies this`chatLog
      ensures effects == [] && chatLog == old(chatLog)
    {
      var pending := approvals.PendingActions();
      NothingApprovedAmongPending(pending);
      effects := ExecuteApprovedAmong(pending, w);
    }

    /** The drain the loop is meant to perform: every approved action in the
        history that was not executed yet is executed once, in order, and
        its id recorded. */
    method ProcessApprovedActions(w: World) returns (effects: seq<Effect>)
      requires Valid()
      modifies this`chatLog, this`executedIds
      ensures Valid()
      ensures effects == DrainEffects(approvals.history, old(executedIds), bots, w)
      ensures executedIds == old(executedIds) + ApprovedIds(approvals.history)
    {
      var h := approvals.history;
      ghost var done := executedIds;
      effects := [];
      var i := 0;
      while i < |h|
        invariant 0 <= i <= |h| && Valid()
        invariant effects == DrainEffects(h[..i], done, bots, w)
        invariant executedIds == done + ApprovedIds(h[..i])
      {
        var a := h[i];
        DrainStep(h, i, done, bots, w);
        if a.status == Approved {
          if a.id !in executedIds {
            var e := ExecuteAndLog(a, w);
            effects := effects + e;
          }
          executedIds := executedIds + {a.id};
        }
        i := i + 1;
      }
      assert h[..|h|] == h;
    }

    /** The `status` branch: a health check, then its confirmation. */
    method UserHealthCheck(w: World)
      requires Valid()
      modifies this`botHealth, this`lastStaleAlert, this`chatLog, approvals, watchdog
      ensures Valid()
      ensures HealthChecked(w, old(PassNow()))
      ensures chatLog != [] && chatLog[|chatLog| - 1] == ChatEntry(w.now, FromJarvis, HealthCheckComplete, Info)
    {
      CheckHealth(w);
      LogChat(ChatEntry(w.now, FromJarvis, HealthCheckComplete, Info));
    }

    /** The `pause <bot>` branch: the executor's pause handler runs directly,
        without the approval engine, and only for a configured bot; a
        handler that raises propagates (`raised`). */
    method UserPause(bot: string, w: World) returns (effects: seq<Effect>, raised: Option<string>)
      requires Valid()
      modifies this`chatLog
      ensures Valid()
      ensures var run := Pause(bots, Some(bot), map["reason" := PText("user_command")], w.env(bot));
        if IsConfigured(bots, bot)
        then effects == run.effects && (raised.Some? <==> run.outcome.Raised?)
        else effects == [] && raised.None?
      ensures raised.Some? ==> chatLog == old(chatLog)
      ensures raised.None? ==>
        && chatLog != []
        && chatLog[|chatLog| - 1] ==
             (if IsConfigured(bots, bot) then ChatEntry(w.now, FromJarvis, PausedByUser(bot), Success)
              else ChatEntry(w.now, FromJarvis, UnknownBot(bot), Error))
    {
      effects, raised := [], None;
      if IsConfigured(bots, bot) {
        var run := Pause(bots, Some(bot), map["reason" := PText("user_command")], w.env(bot));
        effects := run.effects;
        if run.outcome.Raised? {
          raised := Some(run.outcome.message);
        } else {
          LogChat(ChatEntry(w.now, FromJarvis, PausedByUser(bot), Success));
        }
      } else {
        LogChat(ChatEntry(w.now, FromJarvis, UnknownBot(bot), Error));
      }
    }

    /** The `resume <bot>` branch, the mirror image of `UserPause`. */
    method UserResume(bot: string, w: World) returns (effects: seq<Effect>, raised: Option<string>)
      requires Valid()
      modifies this`chatLog
      ensures Valid()
      ensures var run := Resume(bots, Some(bot), w.env(bot));
        if IsConfigured(bots, bot)
        then effects == run.effects && (raised.Some? <==> run.outcome.Raised?)
        else effects == [] && raised.None?
      ensures raised.Some? ==> chatLog == old(chatLog)
      ensures raised.None? ==>
        && chatLog != []
        && chatLog[|chatLog| - 1] ==
             (if IsConfigured(bots, bot) then ChatEntry(w.now, FromJarvis, ResumedByUser(bot), Success)
              else ChatEntry(w.now, FromJarvis, UnknownBot(bot), Error))
    {
      effects, raised := [], None;
      if IsConfigured(bots, bot) {
        var run := Resume(bots, Some(bot), w.env(bot));
        effects := run.effects;
        if run.outcome.Raised? {
          raised := Some(run.outcome.message);
        } else {
          LogChat(ChatEntry(w.now, FromJarvis, ResumedByUser(bot), Success));
        }
      } else {
        LogChat(ChatEntry(w.now, FromJarvis, UnknownBot(bot), Error));
      }
    }

    /** What a command does to the world and whether it raises: `pause` and
        `resume` run the executor's handler for a configured bot and nothing
        for an unknown one; every other command has no effect. */
    predicate CommandOutcome(c: Command, w: World, effects: seq<Effect>, raised: Option<string>) {
      match c
      case PauseCommand(bot) =>
        var run := Pause(bots, Some(bot), map["reason" := PText("user_command")], w.env(bot));
        if IsConfigured(bots, bot)
        then effects == run.effects && (raised.Some? <==> run.outcome.Raised?)
        else effects == [] && raised.None?
      case ResumeCommand(bot) =>
        var run := Resume(bots, Some(bot), w.env(bot));
        if IsConfigured(bots, bot)
        then effects == run.effects && (raised.Some? <==> run.outcome.Raised?)
        else effects == [] && raised.None?
      case _ => effects == [] && raised.None?
    }

    /** The dispatch of `handle_user_command` on a parsed command. */
    method RunCommand(c: Command, w: World) returns (effects: seq<Effect>, raised: Option<string>)
      requires Valid()
      modifies this`botHealth, this`lastStaleAlert, this`chatLog, approvals, watchdog
      ensures Valid()
      ensures c.HealthCommand? ==> HealthChecked(w, old(PassNow()))
      ensures !c.HealthCommand? ==> PassNow() == old(PassNow()) && botHealth == old(botHealth)
      ensures CommandOutcome(c, w, effects, raised)
    {
      effects, raised := [], None;
      match c
      case HealthCommand =>
        UserHealthCheck(w);
      case PauseCommand(bot) =>
        effects, raised := UserPause(bot, w);
      case ResumeCommand(bot) =>
        effects, raised := UserResume(bot, w);
      case _ =>
    }

    /** `handle_user_command`: the text is logged, then parsed and
        dispatched. `status` runs a health check; `pause` and `resume` act on
        the named bot; the commands after `resume` only log in this model. */
    method HandleUserCommand(text: string, w: World) returns (effects: seq<Effect>, raised: Option<string>)
      requires Valid()
      modifies this`botHealth, this`lastStaleAlert, this`chatLog, approvals, watchdog
      ensures Valid()
      ensures ParseCommand(text).HealthCommand? ==> HealthChecked(w, old(PassNow()))
      ensures !ParseCommand(text).HealthCommand? ==> PassNow() == old(PassNow()) && botHealth == old(botHealth)
      ensures CommandOutcome(ParseCommand(text), w, effects, raised)
    {
      var command := ParseCommand(text);
      LogChat(ChatEntry(w.now, FromUser, UserText(text), Info));
      effects, raised := RunCommand(command, w);
    }

    /** An exception ends the cycle: KeyboardInterrupt clears `running`, any
        other exception is logged and the loop goes on. */
    method Recover(f: Fault)
      requires !f.NoFault?
      modifies this`running
      ensures running == (old(running) && !f.Interrupt?)
    {
      if f.Interrupt? {
        running := false;
      }
    }

    /** The health stage of a cycle: the check runs when due and, having
        completed, stamps its timer. */
    method HealthStep(f: Fault, w: World)
      requires Valid()
      modifies this`lastHealthCheck, this`botHealth, this`lastStaleAlert, this`chatLog, approvals, watchdog
      ensures Valid()
      ensures lastHealthCheck == TimerAfter(old(lastHealthCheck), settings.heartbeatInterval, w.now, Passes(f, HealthStage))
      ensures var ran := Passes(f, HealthStage) && Due(old(lastHealthCheck), settings.heartbeatInterval, w.now);
        && (if ran then Reported(w) else botHealth == old(botHealth))
        && PassNow() == if ran then HealthPass(old(PassNow()), bots, botHealth, w,
                                               PermissionTier(approvals.permissions, RestartType), settings.restartPolicy)
                        else old(PassNow())
    {
      if Passes(f, HealthStage) && Due(lastHealthCheck, settings.heartbeatInterval, w.now) {
        CheckHealth(w);
        lastHealthCheck := w.now;
      }
    }

    /** The settlement stage of a cycle: the loss-streak check runs when due
        and, having completed, stamps its timer. */
    method SettlementStep(f: Fault, w: World) returns (effects: seq<Effect>)
      requires Valid()
      modifies this`lastSettlementCheck, this`chatLog, approvals
      ensures Valid()
      ensures lastSettlementCheck
        == TimerAfter(old(lastSettlementCheck), settings.settlementInterval, w.now, Passes(f, SettlementStage))
      ensures var ran := Passes(f, SettlementStage) && Due(old(lastSettlementCheck), settings.settlementInterval, w.now);
        var start := LossState(old(approvals.queue), old(approvals.history), []);
        LossState(approvals.queue, approvals.history, effects)
          == if ran then LossPass(start, bots, bots, w, settings.maxConsecutiveLosses,
                                  PermissionTier(approvals.permissions, PauseType))
             else start
    {
      effects := [];
      if Passes(f, SettlementStage) && Due(lastSettlementCheck, settings.settlementInterval, w.now) {
        effects := CheckLossStreaks(w);
        lastSettlementCheck := w.now;
      }
    }

    /** The state the two checks of a cycle leave, from the values they
        started with: the health check when it ran, then the loss-streak
        check, when it ran, from the queue and history the first left. */
    ghost predicate ChecksDone(f: Fault, w: World, healthTimer: int, settlementTimer: int, s: PassState,
                               health: map<string, HealthEntry>, settled: seq<Effect>)
      reads this`botHealth, this`lastStaleAlert, approvals, watchdog
    {
      var healthRan := Passes(f, HealthStage) && Due(healthTimer, settings.heartbeatInterval, w.now);
      var lossRan := Passes(f, SettlementStage) && Due(settlementTimer, settings.settlementInterval, w.now);
      var afterHealth := if healthRan
                         then HealthPass(s, bots, botHealth, w, PermissionTier(approvals.permissions, RestartType),
                                         settings.restartPolicy)
                         else s;
      var start := LossState(afterHealth.queue, afterHealth.history, []);
      && (if healthRan then Reported(w) else botHealth == health)
      && lastStaleAlert == afterHealth.alerts && watchdog.restartHistory == afterHealth.restarts
      && LossState(approvals.queue, approvals.history, settled)
           == if lossRan then LossPass(start, bots, bots, w, settings.maxConsecutiveLosses,
                                       PermissionTier(approvals.permissions, PauseType))
              else start
    }

    /** The drain of a cycle, when it ran: every approved action of the
        history not in `done` executed once, and its id recorded. */
    ghost predicate Drained(f: Fault, w: World, done: set<nat>, drained: seq<Effect>)
      reads this`executedIds, approvals
    {
      if Passes(f, DrainStage)
      then drained == DrainEffects(approvals.history, done, bots, w)
           && executedIds == done + ApprovedIds(approvals.history)
      else drained == [] && executedIds == done
    }

    /** The four timed stages of a cycle: the health and loss-streak checks,
        then the statistics and analysis stages, each stamping its timer. */
    method PeriodicChecks(f: Fault, w: World) returns (settled: seq<Effect>)
      requires Valid()
      modifies this`lastHealthCheck, this`lastSettlementCheck, this`lastStatsTime, this`lastAnalysisTime
      modifies this`botHealth, this`lastStaleAlert, this`chatLog, approvals, watchdog
      ensures Valid()
      ensures TimersNow() == NextTimers(old(TimersNow()), settings, w.now, f)
      ensures ChecksDone(f, w, old(lastHealthCheck), old(lastSettlementCheck), old(PassNow()), old(botHealth), settled)
    {
      HealthStep(f, w);
      settled := SettlementStep(f, w);
      lastStatsTime := TimerAfter(lastStatsTime, settings.statsInterval, w.now, Passes(f, StatsStage));
      lastAnalysisTime := TimerAfter(lastAnalysisTime, settings.analysisInterval, w.now, Passes(f, AnalysisStage));
    }

    /** One pass of the `while self.running` body: each periodic check runs
        when its interval has elapsed and then stamps its timer; the drain
        runs every cycle. `effects` is what the executor did to the world:
        that of the checks, then that of the drain. */
    method RunCycle(t: Tick) returns (settled: seq<Effect>, drained: seq<Effect>)
      requires Valid()
      modifies this, approvals, watchdog
      ensures Valid()
      ensures TimersNow() == NextTimers(old(TimersNow()), settings, t.world.now, t.fault)
      ensures running == (old(running) && !t.fault.Interrupt?)
      ensures ChecksDone(t.fault, t.world, old(lastHealthCheck), old(lastSettlementCheck), old(PassNow()),
                         old(botHealth), settled)
      ensures Drained(t.fault, t.world, old(executedIds), drained)
    {
      var w, f := t.world, t.fault;
      settled := PeriodicChecks(f, w);
      drained := [];
      if Passes(f, DrainStage) {
        drained := ProcessApprovedActions(w);
      }
      if !f.NoFault? {
        Recover(f);
      }
    }

    /** `run`: the greeting and a first health check, then cycles while
        `running`, one per tick. Of the exceptions a cycle can raise, a
        KeyboardInterrupt is the one that clears `running`: the loop stops
        exactly after the first tick that carries one, and every other
        exception is caught and the loop goes on. (The `SystemExit` of the
        signal handlers and an interrupt during the error path's sleep leave
        `run` without passing through the handler; they are not ticks here.) */
    method Run(start: World, ticks: seq<Tick>) returns (cycles: nat)
      requires Valid()
      modifies this, approvals, watchdog
      ensures Valid()
      ensures var quiet := QuietTicks(ticks);
        if old(running)
        then running == (quiet == |ticks|) && cycles == (if quiet == |ticks| then quiet else quiet + 1)
        else cycles == 0 && !running
    {
      LogChat(ChatEntry(start.now, FromJarvis, Online, Success));
      CheckHealth(start);
      var i := 0;
      while running && i < |ticks|
        invariant 0 <= i <= |ticks| && Valid()
        invariant !old(running) ==> i == 0 && !running
        invariant old(running) ==> i <= QuietTicks(ticks) + 1 && (running <==> i <= QuietTicks(ticks))
        decreases |ticks| - i
      {
        var _, _ := RunCycle(ticks[i]);
        i := i + 1;
      }
      cycles := i;
    }
  }

  /** An action the operator approved, sitting alone in the history, is
      never executed by the loop as written; the intended drain executes it
      once and a second drain does nothing. */
  method ApprovedActionScenario(jarvis: Jarvis, w: World) returns (asWritten: seq<Effect>, drained: seq<Effect>,
                                                                   again: seq<Effect>)
    requires jarvis.Valid() && jarvis.executedIds == {}
    requires |jarvis.approvals.history| == 1 && jarvis.approvals.history[0].status == Approved
    modifies jarvis`chatLog, jarvis`executedIds
    ensures var a := jarvis.approvals.history[0];
      && asWritten == []
      && drained == ExecuteAction(a, jarvis.bots, EnvFor(a, w)).effects
      && jarvis.executedIds == {a.id}
      && again == []
  {
    var a := jarvis.approvals.history[0];
    asWritten := jarvis.ProcessApprovedActionsAsWritten(w);
    drained := jarvis.ProcessApprovedActions(w);
    assert drained == ExecuteAction(a, jarvis.bots, EnvFor(a, w)).effects by {
      assert jarvis.approvals.history[..0] == [];
    }
    assert jarvis.executedIds == {a.id};
    again := jarvis.ProcessApprovedActions(w);
    DrainIsIdempotent(jarvis.approvals.history, {a.id}, jarvis.bots, w);
  }
}
