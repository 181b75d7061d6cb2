/** The analyst: the statistics it derives from a bot's settled trades, the
    loss-streak detector, the call to the language model behind the budget
    gate, and how it reads the model's reply and files what it learns into
    the memory document. Database rows are sequences (most recent first),
    the HTTP reply is a parameter, and JSON decoding is a partial function
    passed in. */
module Analyst {
  import opened Common
  import opened Budget

  // ---------------------------------------------------------------------------
  // Loss streak

  /** The number of leading losses (`won == 0`) in `results`. */
  function LeadingLosses(results: seq<Option<int>>): (n: nat)
    ensures n <= |results|
    ensures forall i :: 0 <= i < n ==> results[i] == Some(0)
    ensures n < |results| ==> results[n] != Some(0)
  {
    if results == [] || results[0] != Some(0) then 0
    else 1 + LeadingLosses(results[1..])
  }

  /** `_detect_loss_streak`: `db` is the `won` column of the bot's settled
      trades, most recent first, or None when the database cannot be read.
      The query keeps ten rows; the loop counts losses until the first row
      that is not one. */
  method DetectLossStreak(db: Option<seq<Option<int>>>) returns (streak: nat)
    ensures db.None? ==> streak == 0
    ensures db.Some? ==> streak == LeadingLosses(db.value[..Min(10, |db.value|)])
    ensures streak <= 10
  {
    if db.None? {
      return 0;
    }
    var results := db.value[..Min(10, |db.value|)];
    streak := 0;
    var i := 0;
    while i < |results|
      invariant 0 <= i <= |results|
      invariant streak == i
      invariant forall k :: 0 <= k < i ==> results[k] == Some(0)
    {
      if results[i] == Some(0) {
        streak := streak + 1;
      } else {
        break;
      }
      i := i + 1;
    }
  }

  // ---------------------------------------------------------------------------
  // Rolling statistics

  /** One settled trade as the statistics query sees it. */
  datatype Trade = Trade(won: Option<int>, pnl: Option<real>, entryPrice: Option<real>,
                         movement: Option<real>)

  datatype Stats = Stats(total: nat, wins: nat, losses: int, winRate: real, totalPnl: real,
                         avgEntry: real, avgMovement: real)

  /** `SUM(CASE WHEN won = 1 THEN 1 ELSE 0 END)`. */
  function Wins(ts: seq<Trade>): (n: nat)
    ensures n <= |ts|
  {
    if ts == [] then 0 else (if ts[0].won == Some(1) then 1 else 0) + Wins(ts[1..])
  }

  /** `Wins` counts, trade by trade in the window's order, exactly those
      whose `won` is 1. */
  lemma {:induction false} WinsAppend(ts: seq<Trade>, t: Trade)
    ensures Wins(ts + [t]) == Wins(ts) + (if t.won == Some(1) then 1 else 0)
    decreases |ts|
  {
    if ts == [] {
      assert [] + [t] == [t];
    } else {
      assert (ts + [t])[1..] == ts[1..] + [t];
      WinsAppend(ts[1..], t);
    }
  }

  /** The trades that are not wins. */
  function NotWon(ts: seq<Trade>): seq<Trade> {
    if ts == [] then []
    else (if ts[0].won == Some(1) then [] else [ts[0]]) + NotWon(ts[1..])
  }

  /** `SUM(x)`, reading NULL as absent; SQL's NULL for no values becomes 0
      through the `or 0` that follows. */
  function SumPresent(xs: seq<Option<real>>): real {
    if xs == [] then 0.0 else xs[0].GetOr(0.0) + SumPresent(xs[1..])
  }

  /** `COUNT(x)`: the number of non-NULL values. */
  function CountPresent(xs: seq<Option<real>>): (n: nat)
    ensures n <= |xs|
    ensures n == 0 <==> forall i :: 0 <= i < |xs| ==> xs[i].None?
    ensures n == |xs| <==> forall i :: 0 <= i < |xs| ==> xs[i].Some?
  {
    if xs == [] then 0 else (if xs[0].Some? then 1 else 0) + CountPresent(xs[1..])
  }

  /** One more row adds one to the count exactly when its value is not NULL,
      and adds its value to the sum. */
  lemma {:induction false} PresentAppend(xs: seq<Option<real>>, x: Option<real>)
    ensures CountPresent(xs + [x]) == CountPresent(xs) + (if x.Some? then 1 else 0)
    ensures SumPresent(xs + [x]) == SumPresent(xs) + x.GetOr(0.0)
    decreases |xs|
  {
    if xs == [] {
      assert [] + [x] == [x];
    } else {
      assert (xs + [x])[1..] == xs[1..] + [x];
      PresentAppend(xs[1..], x);
    }
  }

  /** `AVG(x) or 0`: the mean of the non-NULL values, 0 when there is none. */
  function AvgOrZero(xs: seq<Option<real>>): (r: real)
    ensures CountPresent(xs) == 0 ==> r == 0.0
    ensures CountPresent(xs) > 0 ==> r * CountPresent(xs) as real == SumPresent(xs)
  {
    var n := CountPresent(xs);
    if n == 0 then 0.0 else SumPresent(xs) / n as real
  }

  function Abs(x: real): real {
    if x < 0.0 then -x else x
  }

  function Pnls(ts: seq<Trade>): (r: seq<Option<real>>)
    ensures |r| == |ts|
    ensures forall i :: 0 <= i < |ts| ==> r[i] == ts[i].pnl
  {
    seq(|ts|, i requires 0 <= i < |ts| => ts[i].pnl)
  }

  function Entries(ts: seq<Trade>): (r: seq<Option<real>>)
    ensures |r| == |ts|
    ensures forall i :: 0 <= i < |ts| ==> r[i] == ts[i].entryPrice
  {
    seq(|ts|, i requires 0 <= i < |ts| => ts[i].entryPrice)
  }

  function AbsMovements(ts: seq<Trade>): (r: seq<Option<real>>)
    ensures |r| == |ts|
    ensures forall i :: 0 <= i < |ts| ==> r[i].Some? == ts[i].movement.Some?
    ensures forall i :: 0 <= i < |ts| && r[i].Some? ==>
      r[i].value >= 0.0 && (r[i].value == ts[i].movement.value || r[i].value == -ts[i].movement.value)
  {
    seq(|ts|, i requires 0 <= i < |ts| =>
      if ts[i].movement.Some? then Some(Abs(ts[i].movement.value)) else None)
  }

  /** The win rate in percent: wins over total, times 100. */
  function WinRate(wins: nat, total: nat): (p: real)
    requires 0 < total && wins <= total
    ensures 0.0 <= p <= 100.0
    ensures p * total as real == 100.0 * wins as real
    ensures wins == total <==> p == 100.0
  {
    var q := wins as real / total as real;
    assert q <= 1.0 by {
      assert wins as real <= total as real;
    }
    q * 100.0
  }

  /** `_get_rolling_stats`: over the `window` most recent settled trades;
      None when the database cannot be read or there is no such trade. */
  function RollingStats(db: Option<seq<Trade>>, window: nat): (r: Option<Stats>)
    ensures r.None? <==> db.None? || Min(window, |db.value|) == 0
    ensures r.Some? ==> var w := db.value[..Min(window, |db.value|)];
      && r.value.total == |w| > 0
      && r.value.wins == Wins(w) <= r.value.total
      && r.value.losses == r.value.total - r.value.wins
      && r.value.winRate == WinRate(r.value.wins, r.value.total)
      && r.value.totalPnl == SumPresent(Pnls(w))
      && r.value.avgEntry == AvgOrZero(Entries(w))
      && r.value.avgMovement == AvgOrZero(AbsMovements(w))
  {
    if db.None? then None
    else
      var w := db.value[..Min(window, |db.value|)];
      if |w| == 0 then None
      else
        var total := |w|;
        var wins := Wins(w);
        Some(Stats(total, wins, total - wins, WinRate(wins, total),
                   SumPresent(Pnls(w)), AvgOrZero(Entries(w)), AvgOrZero(AbsMovements(w))))
  }

  /** Wins and non-wins partition the trades. */
  lemma {:induction false} WinsAndLossesPartition(ts: seq<Trade>)
    ensures Wins(ts) + |NotWon(ts)| == |ts|
    ensures forall t :: t in NotWon(ts) <==> t in ts && t.won != Some(1)
  {
    if ts != [] {
      WinsAndLossesPartition(ts[1..]);
      assert ts == [ts[0]] + ts[1..];
    }
  }

  /** The `losses` the statistics report is exactly the number of trades in
      the window that are not wins. */
  lemma LossesAreTheNonWins(db: Option<seq<Trade>>, window: nat)
    requires RollingStats(db, window).Some?
    ensures RollingStats(db, window).value.losses
      == |NotWon(db.value[..Min(window, |db.value|)])|
  {
    WinsAndLossesPartition(db.value[..Min(window, |db.value|)]);
  }

  // ---------------------------------------------------------------------------
  // Calling the model

  /** One block of the reply's `content`: its `type` and `text` keys. */
  datatype Block = Block(kind: Option<string>, text: Option<string>)

  /** What the HTTP call returns: a transport error, or a status with the
      reply's usage counts and content blocks. */
  datatype HttpReply =
    | TransportError(message: string)
    | Reply(status: int, inputTokens: Option<nat>, outputTokens: Option<nat>, content: seq<Block>)

  function BlockText(b: Block): string {
    if b.kind == Some("text") then b.text.GetOr("") else ""
  }

  /** The text of the reply: the text blocks, in order. */
  function TextOf(blocks: seq<Block>): string {
    if blocks == [] then ""
    else TextOf(blocks[..|blocks| - 1]) + BlockText(blocks[|blocks| - 1])
  }

  /** The text of two runs of blocks is the text of the first followed by
      that of the second. */
  lemma {:induction false} TextOfAppend(a: seq<Block>, b: seq<Block>)
    ensures TextOf(a + b) == TextOf(a) + TextOf(b)
    decreases |b|
  {
    if b == [] {
      assert a + b == a;
    } else {
      assert (a + b)[..|a + b| - 1] == a + b[..|b| - 1];
      assert (a + b)[|a + b| - 1] == b[|b| - 1];
      TextOfAppend(a, b[..|b| - 1]);
    }
  }

  /** A block that is not a text block contributes nothing, wherever it
      stands. */
  lemma NonTextBlockIgnored(a: seq<Block>, x: Block, b: seq<Block>)
    requires x.kind != Some("text")
    ensures TextOf(a + [x] + b) == TextOf(a + b)
  {
    var ax := a + [x];
    assert ax[..|ax| - 1] == a;
    assert TextOf(ax) == TextOf(a) + BlockText(x) == TextOf(a);
    TextOfAppend(ax, b);
    TextOfAppend(a, b);
  }

  /** The accumulation loop of `_call_haiku`. */
  method ConcatText(blocks: seq<Block>) returns (text: string)
    ensures text == TextOf(blocks)
  {
    text := "";
    var i := 0;
    while i < |blocks|
      invariant 0 <= i <= |blocks|
      invariant text == TextOf(blocks[..i])
    {
      var b := blocks[i];
      if b.kind == Some("text") {
        text := text + b.text.GetOr("");
      }
      assert blocks[..i + 1][..i] == blocks[..i];
      i := i + 1;
    }
    assert blocks[..i] == blocks;
  }

  /** `_call_haiku`: no call without an API key or when the budget refuses;
      a reply other than 200 gives nothing; a 200 reply is logged against the
      budget once (missing usage counts as 0) and yields its text. */
  method CallHaiku(budget: BudgetTracker, hasApiKey: bool, reply: HttpReply, now: int,
                   day: string, month: string) returns (r: Option<string>)
    modifies budget
    ensures !hasApiKey || !old(budget.CanMakeCall(day, month)) ==>
      r.None? && budget.Snapshot() == old(budget.Snapshot())
    ensures hasApiKey && old(budget.CanMakeCall(day, month)) && !(reply.Reply? && reply.status == 200) ==>
      r.None? && budget.Snapshot() == old(budget.Snapshot())
    ensures hasApiKey && old(budget.CanMakeCall(day, month)) && reply.Reply? && reply.status == 200 ==>
      && r == Some(TextOf(reply.content))
      && budget.Snapshot() == Logged(budget.config, old(budget.Snapshot()),
           reply.inputTokens.GetOr(0), reply.outputTokens.GetOr(0), now, day, month)
  {
    if !hasApiKey {
      return None;
    }
    var allowed := budget.CanMakeCall(day, month);
    if !allowed {
      return None;
    }
    if reply.TransportError? || reply.status != 200 {
      return None;
    }
    budget.LogCall(reply.inputTokens.GetOr(0), reply.outputTokens.GetOr(0), now, day, month);
    var text := ConcatText(reply.content);
    r := Some(text);
  }

  // ---------------------------------------------------------------------------
  // The memory document

  const PastDecisions := "## Past Decisions"
  const NoMemory := "(no memory file found)"

  /** `_read_memory`: the file's text, or a fixed note when it cannot be
      read (which is then what gets written back). */
  function MemoryText(file: Option<string>): string {
    file.GetOr(NoMemory)
  }

  function EntryLine(timestamp: string, entry: string): string {
    "\n- " + timestamp + ": " + entry
  }

  /** `s.replace(old, new, 1)`. */
  function ReplaceOnce(s: string, target: string, replacement: string): string {
    var i := Find(s, target);
    if i < 0 then s else s[..i] + replacement + s[i + |target|..]
  }

  /** Replacing the heading found at `i` by itself followed by a line is
      inserting the line right after it. */
  lemma InsertAfter(m: string, h: string, line: string, i: nat)
    requires OccursAt(m, h, i)
    ensures m[..i] + (h + line) + m[i + |h|..] == m[..i + |h|] + line + m[i + |h|..]
  {
    assert m[..i + |h|] == m[..i] + h;
  }

  /** `_update_memory`: the new entry goes right after the first
      "## Past Decisions" heading, or, without one, a new section holding it
      is appended. */
  function UpdateMemory(file: Option<string>, timestamp: string, entry: string): (r: string)
    ensures var m := MemoryText(file); var i := Find(m, PastDecisions);
      && (i >= 0 ==> r == m[..i + |PastDecisions|] + EntryLine(timestamp, entry)
                          + m[i + |PastDecisions|..])
      && (i < 0 ==> r == m + "\n" + PastDecisions + EntryLine(timestamp, entry) + "\n")
  {
    var m := MemoryText(file);
    var line := EntryLine(timestamp, entry);
    if Contains(m, PastDecisions) then
      InsertAfter(m, PastDecisions, line, Find(m, PastDecisions));
      ReplaceOnce(m, PastDecisions, PastDecisions + line)
    else m + "\n" + PastDecisions + line + "\n"
  }

  /** Two texts that agree up to `k` agree on every slice below `k`. */
  lemma SlicesBelowAgree(m: string, r: string, k: nat, lo: nat, hi: nat)
    requires k <= |m| && k <= |r| && r[..k] == m[..k]
    requires lo <= hi <= k
    ensures r[lo..hi] == m[lo..hi]
  {
    forall t | lo <= t < hi
      ensures r[t] == m[t]
    {
      assert r[t] == r[..k][t];
      assert m[t] == m[..k][t];
    }
  }

  /** The first occurrence of a pattern is unchanged by editing the text
      after it. */
  lemma FirstOccurrenceKept(m: string, r: string, sub: string, k: nat)
    requires Find(m, sub) >= 0 && k == Find(m, sub) + |sub| <= |r|
    requires r[..k] == m[..k]
    ensures Find(r, sub) == Find(m, sub)
  {
    var i := Find(m, sub);
    SlicesBelowAgree(m, r, k, i, i + |sub|);
    assert OccursAt(r, sub, i);
    forall j | 0 <= j < i
      ensures !OccursAt(r, sub, j)
    {
      assert !OccursAt(m, sub, j);
      SlicesBelowAgree(m, r, k, j, j + |sub|);
    }
  }

  /** After an update the heading is there, at the same place as before if it
      was there before, so later entries go into the same section. */
  lemma UpdateKeepsHeading(file: Option<string>, timestamp: string, entry: string)
    ensures var m := MemoryText(file); var r := UpdateMemory(file, timestamp, entry);
      && Contains(r, PastDecisions)
      && (Contains(m, PastDecisions) ==> Find(r, PastDecisions) == Find(m, PastDecisions))
  {
    var m := MemoryText(file);
    var r := UpdateMemory(file, timestamp, entry);
    if Contains(m, PastDecisions) {
      FirstOccurrenceKept(m, r, PastDecisions, Find(m, PastDecisions) + |PastDecisions|);
    } else {
      assert r[|m| + 1..|m| + 1 + |PastDecisions|] == PastDecisions;
      assert OccursAt(r, PastDecisions, |m| + 1);
    }
  }

  /** The memory after filing each update in turn (each update reads the
      file the previous one wrote). */
  function ApplyUpdates(file: Option<string>, timestamp: string, updates: seq<string>): Option<string>
    decreases |updates|
  {
    if updates == [] then file
    else ApplyUpdates(Some(UpdateMemory(file, timestamp, updates[0])), timestamp, updates[1..])
  }

  /** The entry lines of `updates`, newest first. */
  function Stacked(timestamp: string, updates: seq<string>): string
    decreases |updates|
  {
    if updates == [] then "" else Stacked(timestamp, updates[1..]) + EntryLine(timestamp, updates[0])
  }

  /** One update with the heading present inserts its line right after the
      heading, which stays where it was. */
  lemma OneUpdateUnderHeading(m: string, timestamp: string, entry: string)
    requires Contains(m, PastDecisions)
    ensures var k := Find(m, PastDecisions) + |PastDecisions|;
      var r := UpdateMemory(Some(m), timestamp, entry);
      && r == m[..k] + EntryLine(timestamp, entry) + m[k..]
      && Contains(r, PastDecisions) && Find(r, PastDecisions) == Find(m, PastDecisions)
  {
    UpdateKeepsHeading(Some(m), timestamp, entry);
  }

  /** Stacking more lines after a prefix into which one line was inserted. */
  lemma Regroup(p: string, line: string, rest: string, stacked: string)
    ensures var m1 := p + line + rest;
      m1[..|p|] + stacked + m1[|p|..] == p + (stacked + line) + rest
  {
    var m1 := p + line + rest;
    assert m1[..|p|] == p;
    assert m1[|p|..] == line + rest;
  }

  /** With the heading present, filing a series of updates stacks their
      entries right under it, newest first, and leaves the rest of the
      document as it was. */
  lemma {:induction false} UpdatesStackNewestFirst(m: string, timestamp: string, updates: seq<string>)
    requires Contains(m, PastDecisions)
    ensures var k := Find(m, PastDecisions) + |PastDecisions|;
      ApplyUpdates(Some(m), timestamp, updates) == Some(m[..k] + Stacked(timestamp, updates) + m[k..])
    decreases |updates|
  {
    var k := Find(m, PastDecisions) + |PastDecisions|;
    if updates != [] {
      var line := EntryLine(timestamp, updates[0]);
      var m1 := UpdateMemory(Some(m), timestamp, updates[0]);
      OneUpdateUnderHeading(m, timestamp, updates[0]);
      UpdatesStackNewestFirst(m1, timestamp, updates[1..]);
      Regroup(m[..k], line, m[k..], Stacked(timestamp, updates[1..]));
    } else {
      assert m[..k] + Stacked(timestamp, updates) + m[k..] == m;
    }
  }

  // ---------------------------------------------------------------------------
  // Reading the model's reply

  /** The fields of a decoded analysis the daemon acts on. */
  datatype Doc = Doc(summary: Option<string>, memoryUpdates: seq<string>)

  datatype Analysis =
    | Decoded(doc: Doc)
    /** No braces in the reply: the first 500 characters become the summary
        and every list is empty. */
    | SummaryOnly(summary: string)
    /** The braced text did not decode: the raw reply is the summary. */
    | Undecodable(response: string)

  /** The text from the first '{' to the last '}', inclusive, when the last
      '}' comes after the first '{'. */
  function BraceSlice(clean: string): (r: Option<string>)
    ensures r.Some? <==> 0 <= FindChar(clean, '{') < RFindChar(clean, '}')
    ensures r.Some? ==> |r.value| >= 2 && r.value[0] == '{' && r.value[|r.value| - 1] == '}'
  {
    var s := FindChar(clean, '{');
    var e := RFindChar(clean, '}');
    if s >= 0 && e > s then Some(clean[s..e + 1]) else None
  }

  /** Text around an object is cut away exactly when the text before it has
      no '{' and the text after it no '}'. */
  lemma BraceSliceRecoversObject(pre: string, obj: string, post: string)
    requires '{' !in pre && '}' !in post
    requires |obj| >= 2 && obj[0] == '{' && obj[|obj| - 1] == '}'
    ensures BraceSlice(pre + obj + post) == Some(obj)
  {
    var s := pre + obj + post;
    assert s[|pre|] == '{';
    assert forall j :: 0 <= j < |pre| ==> s[j] == pre[j];
    assert FindChar(s, '{') == |pre|;
    var e := |pre| + |obj| - 1;
    assert s[e] == '}';
    assert forall j :: e < j < |s| ==> s[j] == post[j - e - 1];
    assert RFindChar(s, '}') == e;
    assert s[|pre|..e + 1] == obj;
  }

  /** The JSON extraction of `run_scheduled_analysis`. */
  function ParseAnalysis(response: string, decode: string -> Option<Doc>): (a: Analysis)
    ensures BraceSlice(Strip(response)).None? <==> a.SummaryOnly?
    ensures a.SummaryOnly? ==> |a.summary| <= 500 && StartsWith(Strip(response), a.summary)
    ensures a.SummaryOnly? ==> |a.summary| == Min(500, |Strip(response)|)
    ensures BraceSlice(Strip(response)).Some? ==>
      && (a.Decoded? <==> decode(BraceSlice(Strip(response)).value).Some?)
      && (a.Decoded? ==> decode(BraceSlice(Strip(response)).value) == Some(a.doc))
    ensures a.Undecodable? ==> a.response == response
  {
    var clean := Strip(response);
    match BraceSlice(clean)
    case None => SummaryOnly(clean[..Min(500, |clean|)])
    case Some(j) =>
      match decode(j)
      case Some(d) => Decoded(d)
      case None => Undecodable(response)
  }

  function MemoryUpdatesOf(a: Analysis): seq<string> {
    if a.Decoded? then a.doc.memoryUpdates else []
  }

  /** `run_scheduled_analysis` after the prompt is sent: no reply (or an
      empty one) gives nothing; otherwise the reply is read and the memory
      updates of a decoded analysis are filed in order. */
  function ScheduledAnalysis(response: Option<string>, decode: string -> Option<Doc>,
                             memory: Option<string>, timestamp: string)
    : (r: (Option<Analysis>, Option<string>))
    ensures response.None? || response.value == "" ==> r == (None, memory)
    ensures response.Some? && response.value != "" ==>
      && r.0 == Some(ParseAnalysis(response.value, decode))
      && r.1 == ApplyUpdates(memory, timestamp, MemoryUpdatesOf(r.0.value))
    ensures r.0.Some? && !r.0.value.Decoded? ==> r.1 == memory
  {
    if response.None? || response.value == "" then (None, memory)
    else
      var a := ParseAnalysis(response.value, decode);
      (Some(a), ApplyUpdates(memory, timestamp, MemoryUpdatesOf(a)))
  }

  // ---------------------------------------------------------------------------
  // Triggered analysis

  const Backtick: set<char> := {'`'}

  /** The cleaning of `run_triggered_analysis`: strip whitespace, then
      backticks, then whitespace, then a leading "json" and whitespace. */
  function CleanFence(response: string): string {
    var c := Strip(StripChars(Strip(response), Backtick));
    if StartsWith(c, "json") then Strip(c[4..]) else c
  }

  predicate Trimmed(body: string) {
    body != [] && body[0] !in Whitespace && body[0] != '`'
    && body[|body| - 1] !in Whitespace && body[|body| - 1] != '`'
  }

  /** The outer whitespace strip leaves a fenced reply as it is. */
  lemma FencedReplyTrimmed(body: string)
    requires Trimmed(body)
    ensures Strip("```json\n" + body + "\n```") == "```json\n" + body + "\n```"
  {
    var x := "```json\n" + body + "\n```";
    assert [] + x + [] == x;
    StripCharsBetween([], x, [], Whitespace);
  }

  /** The backtick strip removes the fence marks. */
  lemma FenceMarksRemoved(body: string)
    requires Trimmed(body)
    ensures StripChars("```json\n" + body + "\n```", Backtick) == "json\n" + body + "\n"
  {
    var z := "json\n" + body + "\n";
    assert "```json\n" + body + "\n```" == "```" + z + "```";
    StripCharsBetween("```", z, "```", Backtick);
  }

  /** The next strip drops the newline after the body. */
  lemma TrailingNewlineRemoved(body: string)
    requires Trimmed(body)
    ensures Strip("json\n" + body + "\n") == "json\n" + body
  {
    var w := "json\n" + body;
    assert [] + w + "\n" == "json\n" + body + "\n";
    assert w[|w| - 1] == body[|body| - 1];
    StripCharsBetween([], w, "\n", Whitespace);
  }

  /** Dropping the tag and stripping leaves the body. */
  lemma TagRemoved(body: string)
    requires Trimmed(body)
    ensures Strip(("json\n" + body)[4..]) == body
  {
    assert ("json\n" + body)[4..] == "\n" + body + [];
    StripCharsBetween("\n", body, [], Whitespace);
  }

  /** A body wrapped in a ```json fence comes out unwrapped. */
  lemma FencedJsonUnwrapped(body: string)
    requires Trimmed(body)
    ensures CleanFence("```json\n" + body + "\n```") == body
  {
    FencedReplyTrimmed(body);
    FenceMarksRemoved(body);
    TrailingNewlineRemoved(body);
    assert StartsWith("json\n" + body, "json");
    TagRemoved(body);
  }

  /** A reply without a fence and without a "json" tag is left as it is. */
  lemma PlainReplyUnchanged(body: string)
    requires Trimmed(body) && !StartsWith(body, "json")
    ensures CleanFence(body) == body
  {
    assert [] + body + [] == body;
    StripCharsBetween([], body, [], Whitespace);
    StripCharsBetween([], body, [], Backtick);
  }

  datatype Triggered<T> = Diagnosed(value: T) | RawDiagnosis(response: string)

  /** `run_triggered_analysis` after the prompt is sent: a cleaned reply that
      decodes is returned, one that does not is returned raw. */
  function TriggeredAnalysis<T>(response: Option<string>, decode: string -> Option<T>)
    : (r: Option<Triggered<T>>)
    ensures r.None? <==> response.None? || response.value == ""
    ensures r.Some? && r.value.RawDiagnosis? ==>
      r.value.response == response.value && decode(CleanFence(response.value)).None?
    ensures response.Some? && response.value != "" && decode(CleanFence(response.value)).Some? ==>
      r == Some(Diagnosed(decode(CleanFence(response.value)).value))
  {
    if response.None? || response.value == "" then None
    else
      match decode(CleanFence(response.value))
      case Some(v) => Some(Diagnosed(v))
      case None => Some(RawDiagnosis(response.value))
  }
}
