/** The futures monitor: daily Strat candle classification and the
    historical bias table, the previous day's key levels, and the
    EQ-rejection signal watched for during the New York morning session,
    with its once-per-day gates. Prices are reals; the CSV candle files are
    sequences of bars (or None when they cannot be loaded), and the clock is
    a date number with an hour and a minute at a fixed offset of UTC-5, with
    no daylight-saving change. */
module Futures {
  import opened Common

  // ---------------------------------------------------------------------------
  // Strat classification

  /** The Strat candle types: inside (1), directional up or down (2U, 2D),
      outside (3). */
  datatype Strat = Inside | Up | Down | Outside

  function StratName(s: Strat): string {
    match s
    case Inside => "1"
    case Up => "2U"
    case Down => "2D"
    case Outside => "3"
  }

  /** `_classify_strat`, with strict comparisons against the previous
      candle's range. */
  function ClassifyStrat(currHigh: real, currLow: real, prevHigh: real, prevLow: real): (s: Strat)
    ensures s == Outside <==> currHigh > prevHigh && currLow < prevLow
    ensures s == Up <==> currHigh > prevHigh && currLow >= prevLow
    ensures s == Down <==> currHigh <= prevHigh && currLow < prevLow
    ensures s == Inside <==> currHigh <= prevHigh && currLow >= prevLow
  {
    var brokeHigh := currHigh > prevHigh;
    var brokeLow := currLow < prevLow;
    if brokeHigh && brokeLow then Outside
    else if brokeHigh then Up
    else if brokeLow then Down
    else Inside
  }

  datatype Bias = Bull | Bear | Neutral

  /** The historical continuation table of `_lookup_bias`. */
  const BiasTable: map<string, (Bias, int)> := map[
    "1-2U-2U" := (Bull, 100),
    "2D-1-2D" := (Bear, 100),
    "2D-3-2D" := (Bear, 100),
    "1-2U-1" := (Bear, 100),
    "1-2D-2U" := (Bull, 100),
    "2D-3-2U" := (Bull, 100),
    "3-2D-2U" := (Bull, 100),
    "2U-2U-2D" := (Bear, 93),
    "2U-2D-2U" := (Bull, 86),
    "2U-1-2D" := (Bear, 83),
    "2D-1-2U" := (Bull, 83),
    "1-3-2U" := (Bull, 80),
    "3-2U-2D" := (Bear, 80),
    "2D-2D-1" := (Bull, 80),
    "2U-2U-2U" := (Bull, 77),
    "2D-2D-2D" := (Bear, 75),
    "2D-2D-2U" := (Bull, 73)
  ]

  /** `_lookup_bias`: every entry of the table is a direction with a
      historical hit rate between 73 and 100 percent, and an unknown sequence
      has no bias, so "NEUTRAL" means exactly "not in the table". */
  function LookupBias(sequence: string): (r: (Bias, int))
    ensures r.0 == Neutral <==> sequence !in BiasTable
    ensures r.0 == Neutral ==> r.1 == 0
    ensures r.0 != Neutral ==> 73 <= r.1 <= 100
  {
    if sequence in BiasTable then BiasTable[sequence] else (Neutral, 0)
  }

  /** `f"{s1}-{s2}-{s3}"`. */
  function SequenceName(s1: Strat, s2: Strat, s3: Strat): string {
    StratName(s1) + "-" + StratName(s2) + "-" + StratName(s3)
  }

  /** A daily candle. */
  datatype Candle = Candle(high: real, low: real)

  datatype StratSequence = StratSequence(s1: Strat, s2: Strat, s3: Strat, bias: Bias, pct: int)

  function StratAt(d: seq<Candle>, i: nat): Strat
    requires 1 <= i < |d|
  {
    ClassifyStrat(d[i].high, d[i].low, d[i - 1].high, d[i - 1].low)
  }

  /** `_get_strat_sequence`: the last three candles, each classified against
      the one before it, and the bias of that sequence; nothing with fewer
      than four candles. */
  function GetStratSequence(daily: Option<seq<Candle>>): (r: Option<StratSequence>)
    ensures r.None? <==> daily.None? || |daily.value| < 4
    ensures r.Some? ==> var d := daily.value; var n := |d|;
      && r.value.s1 == StratAt(d, n - 3)
      && r.value.s2 == StratAt(d, n - 2)
      && r.value.s3 == StratAt(d, n - 1)
      && (r.value.bias, r.value.pct) == LookupBias(SequenceName(r.value.s1, r.value.s2, r.value.s3))
  {
    if daily.None? || |daily.value| < 4 then None
    else
      var d := daily.value;
      var n := |d|;
      var s1 := StratAt(d, n - 3);
      var s2 := StratAt(d, n - 2);
      var s3 := StratAt(d, n - 1);
      var (b, pct) := LookupBias(SequenceName(s1, s2, s3));
      Some(StratSequence(s1, s2, s3, b, pct))
  }

  /** A sequence of two-up days all the way is read as bullish. */
  lemma ThreeUpDaysAreBullish(daily: seq<Candle>)
    requires |daily| >= 4
    requires forall i :: |daily| - 4 < i < |daily| ==>
      daily[i].high > daily[i - 1].high && daily[i].low >= daily[i - 1].low
    ensures var r := GetStratSequence(Some(daily));
      r.Some? && r.value.bias == Bull && r.value.pct == 77
  {
    var n := |daily|;
    assert StratAt(daily, n - 3) == Up && StratAt(daily, n - 2) == Up && StratAt(daily, n - 1) == Up;
    assert SequenceName(Up, Up, Up) == "2U-2U-2U";
  }

  // ---------------------------------------------------------------------------
  // Key levels

  datatype Levels = Levels(pdh: real, pdl: real, eq: real, range: real, premium: real, discount: real)

  /** `_get_key_levels`: the previous day's high, low, midpoint and range,
      with the premium and discount lines a quarter of the range inside the
      extremes; nothing with fewer than two candles. */
  function GetKeyLevels(daily: Option<seq<Candle>>): (r: Option<Levels>)
    ensures r.None? <==> daily.None? || |daily.value| < 2
    ensures r.Some? ==> var prev := daily.value[|daily.value| - 2];
      && r.value.pdh == prev.high && r.value.pdl == prev.low
      && r.value.range == prev.high - prev.low
      && r.value.eq == (prev.high + prev.low) / 2.0
      && r.value.premium == prev.low + 0.75 * r.value.range
      && r.value.discount == prev.low + 0.25 * r.value.range
      && r.value.pdh - r.value.eq == r.value.eq - r.value.pdl
      && r.value.premium - r.value.eq == r.value.eq - r.value.discount
      && (prev.high >= prev.low ==>
            r.value.pdl <= r.value.discount <= r.value.eq <= r.value.premium <= r.value.pdh)
  {
    if daily.None? || |daily.value| < 2 then None
    else
      var prev := daily.value[|daily.value| - 2];
      var pdh := prev.high;
      var pdl := prev.low;
      var range := pdh - pdl;
      Some(Levels(pdh, pdl, (pdh + pdl) / 2.0, range, pdl + range * 0.75, pdl + range * 0.25))
  }

  // ---------------------------------------------------------------------------
  // Signals

  datatype Direction = Long | Short

  /** How the signal's direction relates to the day's Strat bias; `NoBias`
      is the empty line when no pre-market brief ran. */
  datatype BiasConfirm = NoBias | Confirms | NoStratBias | Conflicts

  datatype Signal = Signal(
    date: int, direction: Direction, entry: real, stop: real, stopDistance: real,
    eqLevel: real, sweepPrice: real, entryTime: int,
    t1r: real, t15r: real, t2r: real, t3r: real,
    stratSequence: Option<StratSequence>, stratBias: Option<Bias>, biasConfirm: BiasConfirm)

  /** +1 for a long, -1 for a short. */
  function Sign(direction: Direction): real {
    if direction == Long then 1.0 else -1.0
  }

  /** The bias that agrees with a direction. */
  function Favoured(direction: Direction): Bias {
    match direction
    case Long => Bull
    case Short => Bear
  }

  function ConfirmBias(direction: Direction, todayBias: Option<Bias>): (c: BiasConfirm)
    ensures c == NoBias <==> todayBias.None?
    ensures c == Confirms <==> todayBias == Some(Favoured(direction))
    ensures c == NoStratBias <==> todayBias == Some(Neutral)
  {
    if todayBias.None? then NoBias
    else if (direction == Long && todayBias.value == Bull)
         || (direction == Short && todayBias.value == Bear) then Confirms
    else if todayBias.value == Neutral then NoStratBias
    else Conflicts
  }

  /** `_build_signal`: targets at 1, 1.5, 2 and 3 times the stop distance
      beyond the entry in the trade's direction, so with a positive stop
      distance they move away from the entry in increasing steps, and a
      short's targets mirror a long's. */
  function BuildSignal(direction: Direction, entry: real, stop: real, stopDist: real, eq: real,
                       sweepPrice: real, entryTime: int, date: int,
                       todaySequence: Option<StratSequence>, todayBias: Option<Bias>): (s: Signal)
    ensures s.direction == direction && s.entry == entry && s.stop == stop
    ensures s.stopDistance == stopDist && s.date == date
    ensures s.biasConfirm == ConfirmBias(direction, todayBias)
    ensures s.t1r - entry == Sign(direction) * stopDist
    ensures s.t15r - entry == Sign(direction) * 1.5 * stopDist
    ensures s.t2r - entry == Sign(direction) * 2.0 * stopDist
    ensures s.t3r - entry == Sign(direction) * 3.0 * stopDist
    ensures stopDist > 0.0 && direction == Long ==> entry < s.t1r < s.t15r < s.t2r < s.t3r
    ensures stopDist > 0.0 && direction == Short ==> entry > s.t1r > s.t15r > s.t2r > s.t3r
  {
    var k := Sign(direction);
    Signal(date, direction, entry, stop, stopDist, eq, sweepPrice, entryTime,
           entry + k * stopDist, entry + k * (stopDist * 1.5),
           entry + k * (stopDist * 2.0), entry + k * (stopDist * 3.0),
           todaySequence, todayBias, ConfirmBias(direction, todayBias))
  }

  /** A five-minute bar: its date, its time as minutes after midnight, and
      its prices. */
  datatype Bar = Bar(date: int, minute: int, open: real, high: real, low: real, close: real)

  const SessionOpen := 9 * 60 + 30
  const SessionClose := 11 * 60

  predicate InSession(b: Bar, date: int) {
    b.date == date && SessionOpen <= b.minute <= SessionClose
  }

  /** The mask of `check_eq_rejection`: today's bars from 9:30 to 11:00
      inclusive, in order. */
  function SessionBars(bars: seq<Bar>, date: int): (r: seq<Bar>)
    ensures |r| <= |bars|
    ensures forall i :: 0 <= i < |r| ==> InSession(r[i], date) && r[i] in bars
    ensures forall i :: 0 <= i < |bars| && InSession(bars[i], date) ==> bars[i] in r
  {
    if bars == [] then []
    else (if InSession(bars[0], date) then [bars[0]] else []) + SessionBars(bars[1..], date)
  }

  /** The mask keeps file order: a later bar comes after every session bar
      before it, so the last two session bars are the two latest ones. */
  lemma {:induction false} SessionBarsAppend(bars: seq<Bar>, b: Bar, date: int)
    ensures SessionBars(bars + [b], date)
         == SessionBars(bars, date) + (if InSession(b, date) then [b] else [])
    decreases |bars|
  {
    if bars == [] {
      assert [] + [b] == [b];
    } else {
      assert (bars + [b])[1..] == bars[1..] + [b];
      SessionBarsAppend(bars[1..], b, date);
    }
  }

  datatype MonitorConfig = MonitorConfig(eqBuffer: real, minStop: real, maxStop: real, stopBuffer: real)

  predicate StopInRange(c: MonitorConfig, stopDist: real) {
    c.minStop <= stopDist <= c.maxStop
  }

  /** The long setup: the sweep bar dips below the EQ band and closes back
      above EQ, and the confirming bar closes up and above EQ. */
  predicate LongSetup(c: MonitorConfig, eq: real, sweep: Bar, confirm: Bar) {
    sweep.low < eq - c.eqBuffer && sweep.close > eq
    && confirm.close > confirm.open && confirm.close > eq
  }

  /** The mirror short setup. */
  predicate ShortSetup(c: MonitorConfig, eq: real, sweep: Bar, confirm: Bar) {
    sweep.high > eq + c.eqBuffer && sweep.close < eq
    && confirm.close < confirm.open && confirm.close < eq
  }

  /** The decision on the last two session bars: long first, short only
      when no long signal was built. */
  function EqSignal(c: MonitorConfig, eq: real, sweep: Bar, confirm: Bar, date: int,
                    todaySequence: Option<StratSequence>, todayBias: Option<Bias>): (r: Option<Signal>)
    ensures r.Some? ==> StopInRange(c, r.value.stopDistance)
    ensures r.Some? && r.value.direction == Long ==> LongSetup(c, eq, sweep, confirm)
    ensures r.Some? && r.value.direction == Short ==> ShortSetup(c, eq, sweep, confirm)
    ensures LongSetup(c, eq, sweep, confirm)
            && StopInRange(c, confirm.close - (sweep.low - c.stopBuffer)) ==>
            r.Some? && r.value.direction == Long
    ensures !(LongSetup(c, eq, sweep, confirm)
              && StopInRange(c, confirm.close - (sweep.low - c.stopBuffer)))
            && ShortSetup(c, eq, sweep, confirm)
            && StopInRange(c, sweep.high + c.stopBuffer - confirm.close) ==>
            r.Some? && r.value.direction == Short
    ensures r.Some? ==> r.value.entry == confirm.close && r.value.eqLevel == eq
    ensures r.Some? && r.value.direction == Long ==>
      r.value.stop == sweep.low - c.stopBuffer && r.value.stopDistance == r.value.entry - r.value.stop
    ensures r.Some? && r.value.direction == Short ==>
      r.value.stop == sweep.high + c.stopBuffer && r.value.stopDistance == r.value.stop - r.value.entry
  {
    var longSignal :=
      if LongSetup(c, eq, sweep, confirm) then
        var entry := confirm.close;
        var stop := sweep.low - c.stopBuffer;
        var dist := entry - stop;
        if StopInRange(c, dist) then
          Some(BuildSignal(Long, entry, stop, dist, eq, sweep.low, confirm.minute, date,
                           todaySequence, todayBias))
        else None
      else None;
    if longSignal.Some? then longSignal
    else if ShortSetup(c, eq, sweep, confirm) then
      var entry := confirm.close;
      var stop := sweep.high + c.stopBuffer;
      var dist := stop - entry;
      if StopInRange(c, dist) then
        Some(BuildSignal(Short, entry, stop, dist, eq, sweep.high, confirm.minute, date,
                         todaySequence, todayBias))
      else None
    else None
  }

  /** `now` at the fixed UTC-5 offset the monitor uses. */
  datatype Clock = Clock(date: int, hour: int, minute: int)

  /** The live-session window of `check_eq_rejection`. */
  predicate InLiveWindow(now: Clock) {
    !(now.hour < 9 || (now.hour == 9 && now.minute < 30)) && !(now.hour >= 11)
  }

  /** The window is 9:30 up to, not including, 11:00. */
  lemma LiveWindowIsMorningSession(now: Clock)
    requires 0 <= now.minute < 60
    ensures InLiveWindow(now) <==> SessionOpen <= now.hour * 60 + now.minute < SessionClose
  {
  }

  datatype Brief = Brief(sequence: StratSequence, levels: Levels)

  datatype SessionSummary = SessionSummary(date: int, sequence: Option<StratSequence>,
                                           bias: Option<Bias>, signalFired: bool)

  // ---------------------------------------------------------------------------
  // The monitor

  class FuturesMonitor {
    const config: MonitorConfig
    var todayBias: Option<Bias>
    var todaySequence: Option<StratSequence>
    var todayLevels: Option<Levels>
    var signalFiredToday: bool
    var lastPremarketDate: Option<int>
    var lastPostsessionDate: Option<int>

    constructor (config: MonitorConfig)
      ensures this.config == config
      ensures todayBias.None? && todaySequence.None? && todayLevels.None?
      ensures !signalFiredToday && lastPremarketDate.None? && lastPostsessionDate.None?
    {
      this.config := config;
      todayBias := None;
      todaySequence := None;
      todayLevels := None;
      signalFiredToday := false;
      lastPremarketDate := None;
      lastPostsessionDate := None;
    }

    /** `run_premarket`: at most once per date unless forced; with at least
        four daily candles it records the day's sequence, bias and levels and
        re-arms the signal gate. */
    method RunPremarket(today: int, force: bool, daily: Option<seq<Candle>>)
      returns (brief: Option<Brief>)
      modifies this
      ensures old(lastPremarketDate) == Some(today) && !force ==>
        brief.None? && unchanged(this)
      ensures brief.None? ==> unchanged(this)
      ensures brief.Some? <==>
        !(old(lastPremarketDate) == Some(today) && !force) && daily.Some? && |daily.value| >= 4
      ensures brief.Some? ==>
        && Some(brief.value.sequence) == GetStratSequence(daily)
        && Some(brief.value.levels) == GetKeyLevels(daily)
        && todaySequence == Some(brief.value.sequence)
        && todayBias == Some(brief.value.sequence.bias)
        && todayLevels == Some(brief.value.levels)
        && !signalFiredToday
        && lastPremarketDate == Some(today)
        && lastPostsessionDate == old(lastPostsessionDate)
    {
      if lastPremarketDate == Some(today) && !force {
        return None;
      }
      if daily.None? {
        return None;
      }
      var sq := GetStratSequence(daily);
      var levels := GetKeyLevels(daily);
      if sq.None? || levels.None? {
        return None;
      }
      todaySequence := sq;
      todayBias := Some(sq.value.bias);
      todayLevels := levels;
      signalFiredToday := false;
      lastPremarketDate := Some(today);
      brief := Some(Brief(sq.value, levels.value));
    }

    /** `check_eq_rejection`: nothing before a brief, after today's signal,
        outside the live window, with fewer than five bars loaded or fewer
        than three session bars; otherwise the decision on the last two
        session bars, and a signal closes the gate for the day. */
    method CheckEqRejection(now: Clock, bars: Option<seq<Bar>>) returns (signal: Option<Signal>)
      modifies this`signalFiredToday
      ensures old(todayLevels).None? || old(signalFiredToday) || !InLiveWindow(now) ==> signal.None?
      ensures signal.None? ==> unchanged(this)
      ensures signal.Some? ==>
        && signalFiredToday && todayLevels.Some?
        && bars.Some? && |bars.value| >= 5
        && var session := SessionBars(bars.value, now.date);
           |session| >= 3
           && signal == EqSignal(config, todayLevels.value.eq, session[|session| - 2],
                                 session[|session| - 1], now.date, todaySequence, todayBias)
      ensures signal.Some? ==>
        todayBias == old(todayBias) && todaySequence == old(todaySequence)
        && todayLevels == old(todayLevels) && lastPremarketDate == old(lastPremarketDate)
        && lastPostsessionDate == old(lastPostsessionDate)
      ensures signal.Some? ==> StopInRange(config, signal.value.stopDistance)
      ensures old(todayLevels).Some? && !old(signalFiredToday) && InLiveWindow(now)
              && bars.Some? && |bars.value| >= 5 && |SessionBars(bars.value, now.date)| >= 3 ==>
        var session := SessionBars(bars.value, now.date);
        signal == EqSignal(config, old(todayLevels).value.eq, session[|session| - 2],
                           session[|session| - 1], now.date, old(todaySequence), old(todayBias))
    {
      signal := None;
      // The gates in order: a brief and no signal yet today, the live
      // window, five bars loaded, three of them in today's session.
      if todayLevels.Some? && !signalFiredToday && InLiveWindow(now) && bars.Some? && |bars.value| >= 5 {
        var eq := todayLevels.value.eq;
        var session := SessionBars(bars.value, now.date);
        if |session| >= 3 {
          signal := EqSignal(config, eq, session[|session| - 2], session[|session| - 1], now.date,
                             todaySequence, todayBias);
          if signal.Some? {
            signalFiredToday := true;
          }
        }
      }
    }

    /** `run_postsession`: at most once per date, and only after a brief. */
    method RunPostsession(today: int) returns (summary: Option<SessionSummary>)
      modifies this`lastPostsessionDate
      ensures summary.Some? <==> old(lastPostsessionDate) != Some(today) && todayLevels.Some?
      ensures summary.None? ==> unchanged(this)
      ensures summary.Some? ==>
        && summary.value == SessionSummary(today, todaySequence, todayBias, signalFiredToday)
        && lastPostsessionDate == Some(today)
        && todayLevels == old(todayLevels) && signalFiredToday == old(signalFiredToday)
        && lastPremarketDate == old(lastPremarketDate)
        && todaySequence == old(todaySequence) && todayBias == old(todayBias)
    {
      if lastPostsessionDate == Some(today) {
        return None;
      }
      if todayLevels.None? {
        return None;
      }
      lastPostsessionDate := Some(today);
      summary := Some(SessionSummary(today, todaySequence, todayBias, signalFiredToday));
    }
  }

  /** One signal per day: after a signal, no later check fires until a new
      brief re-arms the gate; a forced brief re-arms it on the same day. */
  method OneSignalPerDay(m: FuturesMonitor, now: Clock, later: Clock, bars: Option<seq<Bar>>,
                         daily: seq<Candle>)
    returns (first: Option<Signal>, second: Option<Signal>, brief: Option<Brief>)
    requires |daily| >= 4
    modifies m
    ensures first.Some? ==> second.None?
    ensures brief.Some? && !m.signalFiredToday
  {
    first := m.CheckEqRejection(now, bars);
    second := m.CheckEqRejection(later, bars);
    brief := m.RunPremarket(now.date, true, Some(daily));
  }
}
