/** The action executor: routes an approved action to the handler for its
    type, runs it, and turns whatever the handler does into a success or a
    failure record. The file system, the redeem subprocess and the git
    repository are outside the model: what they do is a parameter (`Env`),
    and what a handler does to them is returned as a list of effects. */
module Executor {
  import opened Common
  import opened Config
  import opened Approvals

  // ---------------------------------------------------------------------------
  // The handler table

  datatype Handler =
    | RestartBot | ForceRedeem | PauseBot | ResumeBot
    | ChangeMovementFilter | ChangeStakeSize | ChangeEntryTiming
    | ToggleRsi | ChangeConviction | LogObservation

  /** The action type each handler is registered under. */
  function TypeName(h: Handler): string {
    match h
    case RestartBot => "restart_crashed_bot"
    case ForceRedeem => "redeem_settlements"
    case PauseBot => "pause_on_loss_streak"
    case ResumeBot => "resume_after_cooldown"
    case ChangeMovementFilter => "change_movement_filter"
    case ChangeStakeSize => "change_stake_size"
    case ChangeEntryTiming => "change_entry_timing"
    case ToggleRsi => "enable_disable_rsi"
    case ChangeConviction => "change_conviction_range"
    case LogObservation => "log_observation"
  }

  /** The dispatch dictionary of `execute_action`. */
  const Handlers: map<string, Handler> := map[
    "restart_crashed_bot" := RestartBot,
    "redeem_settlements" := ForceRedeem,
    "pause_on_loss_streak" := PauseBot,
    "resume_after_cooldown" := ResumeBot,
    "change_movement_filter" := ChangeMovementFilter,
    "change_stake_size" := ChangeStakeSize,
    "change_entry_timing" := ChangeEntryTiming,
    "enable_disable_rsi" := ToggleRsi,
    "change_conviction_range" := ChangeConviction,
    "log_observation" := LogObservation
  ]

  /** `handlers.get(action_type)`: exactly the ten registered names find a
      handler, and each finds the handler registered under that name. */
  function HandlerFor(actionType: string): (h: Option<Handler>)
    ensures h.Some? <==> actionType in {
      "restart_crashed_bot", "redeem_settlements", "pause_on_loss_streak", "resume_after_cooldown",
      "change_movement_filter", "change_stake_size", "change_entry_timing", "enable_disable_rsi",
      "change_conviction_range", "log_observation"}
    ensures h.Some? ==> TypeName(h.value) == actionType
  {
    if actionType in Handlers then Some(Handlers[actionType]) else None
  }

  /** Every handler is reachable under its own name. */
  lemma HandlerReachable(h: Handler)
    ensures HandlerFor(TypeName(h)) == Some(h)
  {
  }

  // ---------------------------------------------------------------------------
  // The world a handler acts on

  /** Whether a file-system or git step completes or raises. */
  datatype Io = Ok | Fails(message: string)

  /** `subprocess.run` of the redeem script: it completes with an output and
      a return code, or raises (timeout, missing interpreter, bad cwd). */
  datatype RedeemRun = Completed(stdout: string, returncode: int) | RunError(message: string)

  /** A setting of a bot's main file that a regular expression rewrites. */
  datatype Setting = MinPriceMovement | StakeSize | EntryTiming | MinConviction | MaxConviction

  /** The outside world during one execution. */
  datatype Env = Env(
    /** Opening and reading the bot's main file. */
    read: Io,
    /** The settings whose pattern `re.search` finds in the main file. */
    present: set<Setting>,
    /** Opening and writing a file. */
    write: Io,
    /** `sync_bot_files`, which copies the bot's files into the repository
        and can raise (missing `directory` key, unreadable directory). */
    sync: Io,
    /** `os.path.exists` of the kill-switch file, and `os.remove` of it. */
    killSwitchExists: bool,
    remove: Io,
    redeem: RedeemRun)

  /** An edit made to the text of a bot's main file. */
  datatype Edit = SetValue(setting: Setting, value: Param) | RsiBlock(enabled: bool)

  /** What is written into a file: the main file with edits applied in order,
      or the kill-switch note carrying the pause reason. */
  datatype Content = MainText(edits: seq<Edit>) | KillNote(reason: Param)

  /** What a handler does to the world, in order. */
  datatype Effect =
    | WroteFile(path: string, content: Content)
    | RemovedFile(path: string)
    | RanRedeem(cwd: string)
    | SyncedRepo(bot: Option<string>)
    | CommitRequested(bot: Option<string>, file: string, reason: Param)

  // ---------------------------------------------------------------------------
  // Handler results

  /** The dictionaries the handlers return. */
  datatype HandlerResult =
    | Delegated(bot: Option<string>)
    | RedeemOutput(stdout: string, returncode: int)
    | RedeemFailed(message: string)
    | Paused(killFile: string)
    | Resumed(killSwitchNotFound: bool)
    | Changed(newValue: Param)
    | NoValueProvided
    | PatternNotFound
    | RsiToggled(enable: Param)
    | ConvictionSet(changed: bool, min: Param, max: Param)
    | Logged(observation: Param)

  /** A handler either returns a result or raises. */
  datatype Outcome = Returned(result: HandlerResult) | Raised(message: string)

  datatype HandlerRun = HandlerRun(outcome: Outcome, effects: seq<Effect>)

  /** The record `execute_action` returns. */
  datatype ExecResult = Succeeded(result: HandlerResult) | Failed(error: string)

  datatype Execution = Execution(result: ExecResult, effects: seq<Effect>)

  // ---------------------------------------------------------------------------
  // Parameters and paths

  /** `params.get(key)`: a missing key reads as None. */
  function Get(params: Params, key: string): Param {
    if key in params then params[key] else PNone
  }

  /** `params.get(key, default)`. */
  function GetOr(params: Params, key: string, default: Param): (r: Param)
    ensures key !in params ==> r == default
  {
    if key in params then params[key] else default
  }

  /** Python truthiness of a parameter value. */
  predicate Truthy(p: Param) {
    match p
    case PNone => false
    case PBool(b) => b
    case PInt(i) => i != 0
    case PReal(x) => x != 0.0
    case PText(s) => s != ""
  }

  /** `self.config["bots"].get(bot_name, {})`: an unknown or missing bot reads
      as an empty section. */
  function SectionOf(bots: seq<Bot>, bot: Option<string>): Option<BotConfig> {
    if bot.None? then None else Lookup(bots, bot.value)
  }

  /** `bot_config.get("directory", "")`. */
  function Directory(bots: seq<Bot>, bot: Option<string>): string {
    var c := SectionOf(bots, bot);
    if c.Some? then c.value.directory.GetOr("") else ""
  }

  /** `bot_config.get("main_file", "")`. */
  function MainFileName(bots: seq<Bot>, bot: Option<string>): string {
    var c := SectionOf(bots, bot);
    if c.Some? then c.value.mainFile.GetOr("") else ""
  }

  /** `f"{directory}/{main_file}"`. */
  function MainFilePath(bots: seq<Bot>, bot: Option<string>): string {
    Directory(bots, bot) + "/" + MainFileName(bots, bot)
  }

  /** `f"{directory}/KILL_SWITCH"`. */
  function KillFilePath(bots: seq<Bot>, bot: Option<string>): (r: string)
    ensures StartsWith(r, Directory(bots, bot))
    ensures EndsWith(r, "/KILL_SWITCH")
    ensures |r| == |Directory(bots, bot)| + |"/KILL_SWITCH"|
  {
    Directory(bots, bot) + "/KILL_SWITCH"
  }

  /** Every commit request comes right after a file write and a repository
      sync, in that order. */
  predicate CommitsFollowSync(effects: seq<Effect>) {
    forall i :: 0 <= i < |effects| && effects[i].CommitRequested? ==>
      i >= 2 && effects[i - 2].WroteFile? && effects[i - 1].SyncedRepo?
  }

  /** The commit that follows a successful edit: sync the repository copy,
      then ask git to commit the main file with the action's reason. */
  function SyncAndCommit(bots: seq<Bot>, bot: Option<string>, params: Params, env: Env,
                         written: seq<Effect>, result: HandlerResult): (run: HandlerRun)
    requires |written| == 1 && written[0].WroteFile?
    ensures CommitsFollowSync(run.effects)
    ensures env.sync.Fails? <==> run.outcome.Raised?
  {
    if env.sync.Fails? then HandlerRun(Raised(env.sync.message), written)
    else HandlerRun(Returned(result), written + [SyncedRepo(bot),
      CommitRequested(bot, MainFileName(bots, bot), GetOr(params, "reason", PText("")))])
  }

  // ---------------------------------------------------------------------------
  // The handlers

  /** `_force_redeem`: runs the redeem script in the bot's directory; the
      output is cut to its first 500 characters and an error is caught and
      returned as a result. */
  function Redeem(bots: seq<Bot>, bot: Option<string>, env: Env): (run: HandlerRun)
    ensures run.outcome.Returned?
    ensures run.effects == [RanRedeem(Directory(bots, bot))]
    ensures run.outcome.result.RedeemOutput? <==> env.redeem.Completed?
    ensures env.redeem.Completed? ==>
      var r := run.outcome.result;
      && |r.stdout| == Min(500, |env.redeem.stdout|) && StartsWith(env.redeem.stdout, r.stdout)
      && r.returncode == env.redeem.returncode
    ensures env.redeem.RunError? ==> run.outcome.result == RedeemFailed(env.redeem.message)
  {
    var cwd := Directory(bots, bot);
    match env.redeem
    case Completed(out, code) =>
      HandlerRun(Returned(RedeemOutput(out[..Min(500, |out|)], code)), [RanRedeem(cwd)])
    case RunError(m) => HandlerRun(Returned(RedeemFailed(m)), [RanRedeem(cwd)])
  }

  /** `_pause_bot`: writes the kill-switch note with the reason
      (default "loss_streak"). */
  function Pause(bots: seq<Bot>, bot: Option<string>, params: Params, env: Env): HandlerRun {
    var kill := KillFilePath(bots, bot);
    if env.write.Fails? then HandlerRun(Raised(env.write.message), [])
    else HandlerRun(Returned(Paused(kill)),
      [WroteFile(kill, KillNote(GetOr(params, "reason", PText("loss_streak"))))])
  }

  /** `_resume_bot`: removes the kill switch if there is one. */
  function Resume(bots: seq<Bot>, bot: Option<string>, env: Env): HandlerRun {
    var kill := KillFilePath(bots, bot);
    if !env.killSwitchExists then HandlerRun(Returned(Resumed(true)), [])
    else if env.remove.Fails? then HandlerRun(Raised(env.remove.message), [])
    else HandlerRun(Returned(Resumed(false)), [RemovedFile(kill)])
  }

  /** The three handlers that rewrite one numeric setting from
      `params["value"]`: movement filter, stake size and entry timing. */
  function Patch(setting: Setting, bots: seq<Bot>, bot: Option<string>, params: Params,
                 env: Env): HandlerRun
  {
    var v := Get(params, "value");
    if v == PNone then HandlerRun(Returned(NoValueProvided), [])
    else if env.read.Fails? then HandlerRun(Raised(env.read.message), [])
    else if setting !in env.present then HandlerRun(Returned(PatternNotFound), [])
    else if env.write.Fails? then HandlerRun(Raised(env.write.message), [])
    else
      SyncAndCommit(bots, bot, params, env,
        [WroteFile(MainFilePath(bots, bot), MainText([SetValue(setting, v)]))], Changed(v))
  }

  /** `_toggle_rsi`: comments the weak-RSI block in or out according to the
      truthiness of `params.get("enable", False)`, and always writes. */
  function ToggleRsiBlock(bots: seq<Bot>, bot: Option<string>, params: Params,
                          env: Env): HandlerRun
  {
    var enable := GetOr(params, "enable", PBool(false));
    if env.read.Fails? then HandlerRun(Raised(env.read.message), [])
    else if env.write.Fails? then HandlerRun(Raised(env.write.message), [])
    else
      SyncAndCommit(bots, bot, params, env,
        [WroteFile(MainFilePath(bots, bot), MainText([RsiBlock(Truthy(enable))]))],
        RsiToggled(enable))
  }

  /** The edits `_change_conviction` applies: min first, then max, each only
      when given. */
  function ConvictionEdits(mn: Param, mx: Param): seq<Edit> {
    (if mn != PNone then [SetValue(MinConviction, mn)] else [])
    + (if mx != PNone then [SetValue(MaxConviction, mx)] else [])
  }

  /** `_change_conviction`: reads the file, applies the given bounds, and
      writes and commits only when at least one was given. */
  function ConvictionRun(bots: seq<Bot>, bot: Option<string>, params: Params,
                         env: Env): HandlerRun
  {
    var mn := Get(params, "min");
    var mx := Get(params, "max");
    var changed := mn != PNone || mx != PNone;
    if env.read.Fails? then HandlerRun(Raised(env.read.message), [])
    else if !changed then HandlerRun(Returned(ConvictionSet(false, mn, mx)), [])
    else if env.write.Fails? then HandlerRun(Raised(env.write.message), [])
    else
      SyncAndCommit(bots, bot, params, env,
        [WroteFile(MainFilePath(bots, bot), MainText(ConvictionEdits(mn, mx)))],
        ConvictionSet(true, mn, mx))
  }

  /** `_change_conviction` step by step, as the source does it: the text and
      the `changed` flag are updated per bound, then written once. */
  method ChangeConvictionRange(bots: seq<Bot>, bot: Option<string>, params: Params, env: Env)
    returns (run: HandlerRun)
    ensures run == ConvictionRun(bots, bot, params, env)
  {
    var newMin := Get(params, "min");
    var newMax := Get(params, "max");
    if env.read.Fails? {
      return HandlerRun(Raised(env.read.message), []);
    }
    var edits: seq<Edit> := [];
    var changed := false;
    if newMin != PNone {
      edits := edits + [SetValue(MinConviction, newMin)];
      changed := true;
    }
    if newMax != PNone {
      edits := edits + [SetValue(MaxConviction, newMax)];
      changed := true;
    }
    assert edits == ConvictionEdits(newMin, newMax);
    var effects: seq<Effect> := [];
    if changed {
      if env.write.Fails? {
        return HandlerRun(Raised(env.write.message), effects);
      }
      effects := effects + [WroteFile(MainFilePath(bots, bot), MainText(edits))];
      if env.sync.Fails? {
        return HandlerRun(Raised(env.sync.message), effects);
      }
      effects := effects + [SyncedRepo(bot),
        CommitRequested(bot, MainFileName(bots, bot), GetOr(params, "reason", PText("")))];
    }
    run := HandlerRun(Returned(ConvictionSet(changed, newMin, newMax)), effects);
  }

  /** Runs one handler. */
  function RunHandler(h: Handler, bots: seq<Bot>, bot: Option<string>, params: Params,
                      env: Env): HandlerRun
  {
    match h
    case RestartBot => HandlerRun(Returned(Delegated(bot)), [])
    case ForceRedeem => Redeem(bots, bot, env)
    case PauseBot => Pause(bots, bot, params, env)
    case ResumeBot => Resume(bots, bot, env)
    case ChangeMovementFilter => Patch(MinPriceMovement, bots, bot, params, env)
    case ChangeStakeSize => Patch(StakeSize, bots, bot, params, env)
    case ChangeEntryTiming => Patch(EntryTiming, bots, bot, params, env)
    case ToggleRsi => ToggleRsiBlock(bots, bot, params, env)
    case ChangeConviction => ConvictionRun(bots, bot, params, env)
    case LogObservation => HandlerRun(Returned(Logged(GetOr(params, "message", PText("")))), [])
  }

  /** `execute_action`: an unknown type fails with "no_handler" and touches
      nothing; otherwise a handler that returns is a success carrying its
      result and a handler that raises is a failure carrying the message,
      with the effects it had before raising. */
  function ExecuteAction(a: Action, bots: seq<Bot>, env: Env): (e: Execution)
    ensures a.actionType !in Handlers ==> e == Execution(Failed("no_handler"), [])
    ensures a.actionType in Handlers ==>
      var run := RunHandler(Handlers[a.actionType], bots, a.bot, a.params, env);
      && e.effects == run.effects
      && (e.result.Succeeded? <==> run.outcome.Returned?)
      && (e.result.Succeeded? ==> e.result.result == run.outcome.result)
      && (e.result.Failed? ==> e.result.error == run.outcome.message)
  {
    match HandlerFor(a.actionType)
    case None => Execution(Failed("no_handler"), [])
    case Some(h) =>
      var run := RunHandler(h, bots, a.bot, a.params, env);
      match run.outcome
      case Returned(r) => Execution(Succeeded(r), run.effects)
      case Raised(m) => Execution(Failed(m), run.effects)
  }

  // ---------------------------------------------------------------------------
  // Properties of the executor

  /** The three value-patching handlers check for a value before touching
      anything: with no value the execution succeeds with the
      "no_value_provided" result and has no effect, whatever the world. */
  lemma MissingValueTouchesNothing(a: Action, bots: seq<Bot>, env: Env)
    requires a.actionType in {"change_movement_filter", "change_stake_size", "change_entry_timing"}
    requires Get(a.params, "value") == PNone
    ensures ExecuteAction(a, bots, env) == Execution(Succeeded(NoValueProvided), [])
  {
  }

  /** A restart is only delegated: the executor reports the bot back and does
      nothing itself. */
  lemma RestartIsDelegated(a: Action, bots: seq<Bot>, env: Env)
    requires a.actionType == "restart_crashed_bot"
    ensures ExecuteAction(a, bots, env) == Execution(Succeeded(Delegated(a.bot)), [])
  {
  }

  /** A resume reports "resumed" whenever it returns, with the
      kill_switch_not_found note exactly when there was no kill switch; it
      fails only when removing an existing kill switch raises. */
  lemma ResumeReportsResumed(a: Action, bots: seq<Bot>, env: Env)
    requires a.actionType == "resume_after_cooldown"
    ensures var e := ExecuteAction(a, bots, env);
      && (e.result.Failed? <==> env.killSwitchExists && env.remove.Fails?)
      && (e.result.Succeeded? ==> e.result.result == Resumed(!env.killSwitchExists))
      && (e.effects != [] <==> e.result.Succeeded? && env.killSwitchExists)
  {
  }

  /** The conviction handler: `changed` is reported exactly when a bound was
      given, and the main file is written exactly when a bound was given and
      reading and opening for writing both succeed. */
  lemma ConvictionWritesOnlyWhenChanged(a: Action, bots: seq<Bot>, env: Env)
    requires a.actionType == "change_conviction_range"
    ensures var e := ExecuteAction(a, bots, env);
      var given := Get(a.params, "min") != PNone || Get(a.params, "max") != PNone;
      && (e.result.Succeeded? ==>
            e.result.result.ConvictionSet? && (e.result.result.changed <==> given))
      && ((exists i :: 0 <= i < |e.effects| && e.effects[i].WroteFile?)
            <==> given && env.read.Ok? && env.write.Ok?)
  {
    var e := ExecuteAction(a, bots, env);
    var given := Get(a.params, "min") != PNone || Get(a.params, "max") != PNone;
    if given && env.read.Ok? && env.write.Ok? {
      assert e.effects[0].WroteFile?;
    }
  }

  /** Every commit the executor asks for comes after the edited file was
      written and the repository copy synced. */
  lemma CommitFollowsWriteAndSync(a: Action, bots: seq<Bot>, env: Env)
    ensures CommitsFollowSync(ExecuteAction(a, bots, env).effects)
  {
    if a.actionType in Handlers {
      var h := Handlers[a.actionType];
      match h
      case RestartBot =>
      case ForceRedeem =>
      case PauseBot =>
      case ResumeBot =>
      case ChangeMovementFilter =>
      case ChangeStakeSize =>
      case ChangeEntryTiming =>
      case ToggleRsi =>
      case ChangeConviction =>
      case LogObservation =>
    }
  }

  /** The file is changed but the action is reported as failed: when the
      repository sync raises after an edit was written, `execute_action`
      returns a failure although the bot's main file already holds the new
      value. */
  lemma FailureAfterWrite(a: Action, bots: seq<Bot>, env: Env)
    requires a.actionType == "change_stake_size"
    requires Get(a.params, "value") != PNone
    requires env.read.Ok? && StakeSize in env.present && env.write.Ok? && env.sync.Fails?
    ensures var e := ExecuteAction(a, bots, env);
      && e.result == Failed(env.sync.message)
      && e.effects == [WroteFile(MainFilePath(bots, a.bot),
                                 MainText([SetValue(StakeSize, Get(a.params, "value"))]))]
  {
  }
}
