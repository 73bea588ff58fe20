/** Context compaction (crates/roz-agent/src/context.rs). A string's length stands for its
    UTF-8 length, and the JSON of a tool call is its rendered string. Token sums are unbounded. */
module Context {
  import opened Floats

  datatype Role = System | User | Assistant

  datatype Part =
    | Text(text: string)
    | ToolUse(id: string, name: string, input: string)
    | ToolResult(toolUseId: string, name: string, content: string, isError: bool)
    | Thinking(thinking: string, signature: string)
    | Image(mediaType: string, data: string)

  datatype Message = Message(role: Role, parts: seq<Part>)

  const U32: nat := 0x1_0000_0000

  // ------------------------------------------------------------------
  // Token estimates
  // ------------------------------------------------------------------

  function PartLength(p: Part): nat {
    match p
    case Text(text) => |text|
    case ToolUse(id, name, input) => |id| + |name| + |input|
    case ToolResult(id, _, content, _) => |id| + |content|
    case Thinking(thinking, _) => |thinking|
    case Image(_, _) => 256
  }

  function PartsLength(parts: seq<Part>): nat {
    if parts == [] then 0 else PartsLength(parts[..|parts| - 1]) + PartLength(parts[|parts| - 1])
  }

  /** Four characters a token, cast to 32 bits, at least one. */
  function EstimatedTokens(m: Message): (n: nat)
    ensures n >= 1
  {
    var tokens := (PartsLength(m.parts) / 4) % U32;
    if tokens == 0 then 1 else tokens
  }

  function Tokens(messages: seq<Message>): nat {
    if messages == [] then 0 else EstimatedTokens(messages[0]) + Tokens(messages[1..])
  }

  // ------------------------------------------------------------------
  // Pairs
  // ------------------------------------------------------------------

  predicate HasToolResults(m: Message) {
    exists i :: 0 <= i < |m.parts| && m.parts[i].ToolResult?
  }

  predicate UsesTools(m: Message) {
    m.role == Assistant && exists i :: 0 <= i < |m.parts| && m.parts[i].ToolUse?
  }

  /** Cutting before message `k` separates tool results from the turn that asked for them. */
  predicate CutsPair(messages: seq<Message>, k: int) {
    0 < k < |messages| && HasToolResults(messages[k]) && UsesTools(messages[k - 1])
  }

  /** Where the backward walk from `i` stops: messages are taken while they fit the budget, a
      tool-result message together with the turn that asked for it. */
  function Walk(messages: seq<Message>, budget: nat, i: nat): (k: nat)
    requires i <= |messages|
    ensures k <= i
  {
    if i == 0 then 0
    else
      var j := if CutsPair(messages, i - 1) then i - 2 else i - 1;
      if Tokens(messages[j..]) > budget then i else Walk(messages, budget, j)
  }

  function Reversed<T>(s: seq<T>): (r: seq<T>)
    ensures |r| == |s|
  {
    if s == [] then [] else Reversed(s[1..]) + [s[0]]
  }

  lemma {:induction false} ReversedAppend<T>(s: seq<T>, x: T)
    ensures Reversed(s + [x]) == [x] + Reversed(s)
  {
    if s != [] {
      assert (s + [x])[1..] == s[1..] + [x];
      ReversedAppend(s[1..], x);
    }
  }

  lemma TokensFrom(messages: seq<Message>, i: nat)
    requires 0 < i <= |messages|
    ensures Tokens(messages[i - 1..]) == EstimatedTokens(messages[i - 1]) + Tokens(messages[i..])
  {
    assert messages[i - 1..][1..] == messages[i..];
  }

  lemma WalkStep(messages: seq<Message>, budget: nat, i: nat)
    requires 0 < i <= |messages|
    ensures var j := if CutsPair(messages, i - 1) then i - 2 else i - 1;
      Walk(messages, budget, i) == if Tokens(messages[j..]) > budget then i else Walk(messages, budget, j)
  {
  }

  /** `taken` holds the messages from `i` on, newest first, and `tokens` is their estimate. */
  ghost predicate Collected(messages: seq<Message>, i: nat, taken: seq<Message>, tokens: nat) {
    i <= |messages| && Reversed(taken) == messages[i..] && tokens == Tokens(messages[i..])
  }

  lemma CollectOne(messages: seq<Message>, i: nat, msg: Message, taken: seq<Message>, tokens: nat)
    requires 0 < i && Collected(messages, i, taken, tokens) && msg == messages[i - 1]
    ensures Collected(messages, i - 1, taken + [msg], tokens + EstimatedTokens(msg))
  {
    hide Tokens, EstimatedTokens;
    TokensFrom(messages, i);
    ReversedAppend(taken, msg);
  }

  /** Between two rounds of the backward loop, which is to stop at `stop`. */
  ghost predicate Walking(messages: seq<Message>, budget: nat, stop: nat, i: nat, taken: seq<Message>, tokens: nat) {
    i <= |messages| && Collected(messages, i, taken, tokens) && Walk(messages, budget, i) == stop
  }

  lemma WalkOne(messages: seq<Message>, budget: nat, stop: nat, i: nat, taken: seq<Message>, tokens: nat, msg: Message)
    requires Walking(messages, budget, stop, i, taken, tokens) && 0 < i && msg == messages[i - 1]
    requires !(HasToolResults(msg) && i >= 2 && UsesTools(messages[i - 2]))
    ensures var t := tokens + EstimatedTokens(msg);
      if t > budget then stop == i else Walking(messages, budget, stop, i - 1, taken + [msg], t)
  {
    hide Tokens, Walk, EstimatedTokens, HasToolResults, UsesTools, Reversed;
    CollectOne(messages, i, msg, taken, tokens);
    WalkStep(messages, budget, i);
  }

  lemma WalkPair(messages: seq<Message>, budget: nat, stop: nat, i: nat, taken: seq<Message>, tokens: nat, msg: Message, prev: Message)
    requires Walking(messages, budget, stop, i, taken, tokens) && 2 <= i && msg == messages[i - 1] && prev == messages[i - 2]
    requires HasToolResults(msg) && UsesTools(prev)
    ensures var t := tokens + (EstimatedTokens(msg) + EstimatedTokens(prev));
      if t > budget then stop == i else Walking(messages, budget, stop, i - 2, taken + [msg] + [prev], t)
  {
    hide Tokens, Walk, EstimatedTokens, HasToolResults, UsesTools, Reversed;
    CollectOne(messages, i, msg, taken, tokens);
    CollectOne(messages, i - 1, prev, taken + [msg], tokens + EstimatedTokens(msg));
    WalkStep(messages, budget, i);
  }

  method SplitPreservingPairs(messages: seq<Message>, budget: nat) returns (old': seq<Message>, recent: seq<Message>)
    ensures old' == messages[..Walk(messages, budget, |messages|)]
    ensures recent == messages[Walk(messages, budget, |messages|)..]
  {
    var taken: seq<Message> := [];
    var tokens: nat := 0;
    var i := |messages|;
    ghost var stop := Walk(messages, budget, |messages|);
    assert Walking(messages, budget, stop, i, taken, tokens);
    hide HasToolResults, UsesTools, EstimatedTokens, Tokens, Reversed, Walk, Walking;
    while i > 0
      invariant 0 <= i <= |messages|
      invariant Walking(messages, budget, stop, i, taken, tokens)
      decreases i
    {
      var msg := messages[i - 1];
      var msgTokens := EstimatedTokens(msg);
      if HasToolResults(msg) && i >= 2 {
        var prev := messages[i - 2];
        if UsesTools(prev) {
          var pairTokens := msgTokens + EstimatedTokens(prev);
          WalkPair(messages, budget, stop, i, taken, tokens, msg, prev);
          if tokens + pairTokens > budget {
            break;
          }
          taken := taken + [msg] + [prev];
          tokens := tokens + pairTokens;
          i := i - 2;
          continue;
        }
      }
      WalkOne(messages, budget, stop, i, taken, tokens, msg);
      if tokens + msgTokens > budget {
        break;
      }
      taken := taken + [msg];
      tokens := tokens + msgTokens;
      i := i - 1;
    }
    recent := Reversed(taken);
    old' := messages[..i];
    Finished(messages, budget, stop, i, taken, tokens);
  }

  lemma Finished(messages: seq<Message>, budget: nat, stop: nat, i: nat, taken: seq<Message>, tokens: nat)
    requires Walking(messages, budget, stop, i, taken, tokens) && (i == 0 || i == stop)
    ensures Reversed(taken) == messages[i..] && i == stop
  {
  }

  // ------------------------------------------------------------------
  // Level 1: old tool results
  // ------------------------------------------------------------------

  function ResultsIn(parts: seq<Part>, n: nat): nat
    requires n <= |parts|
  {
    if n == 0 then 0 else ResultsIn(parts, n - 1) + if parts[n - 1].ToolResult? then 1 else 0
  }

  /** Tool results in the first `n` messages. */
  function ResultsBefore(messages: seq<Message>, n: nat): nat
    requires n <= |messages|
  {
    if n == 0 then 0 else ResultsBefore(messages, n - 1) + ResultsIn(messages[n - 1].parts, |messages[n - 1].parts|)
  }

  /** How many tool results come before part `pi` of message `mi`, in reading order. */
  function Rank(messages: seq<Message>, mi: nat, pi: nat): nat
    requires mi < |messages| && pi <= |messages[mi].parts|
  {
    ResultsBefore(messages, mi) + ResultsIn(messages[mi].parts, pi)
  }

  function Decimal(n: nat): string {
    if n < 10 then ["0123456789"[n]] else Decimal(n / 10) + ["0123456789"[n % 10]]
  }

  function EstimateText(text: string): nat {
    (|text| % U32) / 4
  }

  function ClearPart(p: Part): Part
    requires p.ToolResult?
  {
    p.(content := "[cleared: ~" + Decimal(EstimateText(p.content)) + " tokens]")
  }

  /** The parts of message `mi` once the first `n` tool results of the conversation are cleared. */
  function ClearParts(messages: seq<Message>, mi: nat, n: nat): seq<Part>
    requires mi < |messages|
  {
    var parts := messages[mi].parts;
    seq(|parts|, pi requires 0 <= pi < |parts| =>
      if parts[pi].ToolResult? && Rank(messages, mi, pi) < n then ClearPart(parts[pi]) else parts[pi])
  }

  function ClearFirst(messages: seq<Message>, n: nat): seq<Message> {
    seq(|messages|, mi requires 0 <= mi < |messages| => messages[mi].(parts := ClearParts(messages, mi, n)))
  }

  function Excess(total: nat, keep: nat): nat {
    if total <= keep then 0 else total - keep
  }

  /** All but the last `keep` tool results are replaced by a placeholder. */
  function ClearResults(messages: seq<Message>, keep: nat): seq<Message> {
    ClearFirst(messages, Excess(ResultsBefore(messages, |messages|), keep))
  }

  // ------------------------------------------------------------------
  // Level 2: old thinking
  // ------------------------------------------------------------------

  predicate HasThinking(m: Message) {
    m.role == Assistant && exists i :: 0 <= i < |m.parts| && m.parts[i].Thinking?
  }

  function ThinkingBefore(messages: seq<Message>, n: nat): nat
    requires n <= |messages|
  {
    if n == 0 then 0 else ThinkingBefore(messages, n - 1) + if HasThinking(messages[n - 1]) then 1 else 0
  }

  function WithoutThinking(parts: seq<Part>): seq<Part> {
    if parts == [] then []
    else WithoutThinking(parts[..|parts| - 1]) + if parts[|parts| - 1].Thinking? then [] else [parts[|parts| - 1]]
  }

  /** The first `n` assistant turns that hold thinking lose it. */
  function StripFirst(messages: seq<Message>, n: nat): seq<Message> {
    seq(|messages|, k requires 0 <= k < |messages| =>
      if HasThinking(messages[k]) && ThinkingBefore(messages, k) < n
      then messages[k].(parts := WithoutThinking(messages[k].parts))
      else messages[k])
  }

  function StripThinking(messages: seq<Message>, keep: nat): seq<Message> {
    StripFirst(messages, Excess(ThinkingBefore(messages, |messages|), keep))
  }

  // ------------------------------------------------------------------
  // Escalation
  // ------------------------------------------------------------------

  datatype Settings = Settings(
    maxTokens: nat,
    toolClearThreshold: real,
    thinkingClearThreshold: real,
    summaryThreshold: real,
    keepToolResults: nat,
    keepThinkingTurns: nat)

  function NewSettings(maxTokens: nat): Settings {
    Settings(maxTokens, 0.50, 0.65, 0.85, 5, 2)
  }

  /** `tokens / maxTokens > threshold`. With a zero budget the quotient is infinite or NaN,
      and the comparison comes out the same way. */
  predicate Exceeds(c: Settings, messages: seq<Message>, threshold: real) {
    Tokens(messages) as real > threshold * c.maxTokens as real
  }

  /** What the model answers, if there is one: a failed call, or a text, possibly missing. */
  datatype Model = NoModel | CallFails | Answers(text: Option<string>)

  function SummaryMessage(text: Option<string>): Message {
    Message(User, [Text("[Summary of earlier conversation]\n" + if text.Some? then text.value else "Summary unavailable.")])
  }

  predicate StartsWithSystem(messages: seq<Message>) {
    messages != [] && messages[0].role == System
  }

  /** The system message, the summary, and the longest fitting suffix of the rest. */
  function Summarized(c: Settings, messages: seq<Message>, text: Option<string>): seq<Message>
    requires StartsWithSystem(messages)
  {
    var rest := messages[1..];
    [messages[0], SummaryMessage(text)] + rest[Walk(rest, c.maxTokens / 4, |rest|)..]
  }

  function Level1(c: Settings, messages: seq<Message>): seq<Message> {
    if Exceeds(c, messages, c.toolClearThreshold) then ClearResults(messages, c.keepToolResults) else messages
  }

  function Level2(c: Settings, messages: seq<Message>): seq<Message> {
    if Exceeds(c, messages, c.thinkingClearThreshold) then StripThinking(messages, c.keepThinkingTurns) else messages
  }

  function Level3(c: Settings, messages: seq<Message>, model: Model): seq<Message> {
    if Exceeds(c, messages, c.summaryThreshold) && model.Answers? && StartsWithSystem(messages)
    then Summarized(c, messages, model.text)
    else messages
  }

  function Compacted(c: Settings, messages: seq<Message>, model: Model): seq<Message> {
    Level3(c, Level2(c, Level1(c, messages)), model)
  }

  datatype Level = ToolResults | ThinkingBlocks | Summary

  datatype CompactionEvent = CompactionEvent(level: Level, messagesBefore: nat, messagesAfter: nat, tokensBefore: nat, tokensAfter: nat)

  function Change(level: Level, before: seq<Message>, after: seq<Message>): CompactionEvent {
    CompactionEvent(level, |before|, |after|, Tokens(before), Tokens(after))
  }

  /** One event per level that fired, from least to most lossy. */
  function Changes(c: Settings, messages: seq<Message>, model: Model): seq<CompactionEvent> {
    var l1 := Level1(c, messages);
    var l2 := Level2(c, l1);
    (if Exceeds(c, messages, c.toolClearThreshold) then [Change(ToolResults, messages, l1)] else [])
    + (if Exceeds(c, l1, c.thinkingClearThreshold) then [Change(ThinkingBlocks, l1, l2)] else [])
    + (if Exceeds(c, l2, c.summaryThreshold) && model.Answers? && StartsWithSystem(l2)
       then [Change(Summary, l2, Level3(c, l2, model))] else [])
  }

  /** The events account for every change of the message and token counts, in order. */
  predicate Accounts(events: seq<CompactionEvent>, before: (nat, nat), after: (nat, nat)) {
    if events == [] then before == after
    else
      var e := events[0];
      (e.messagesBefore, e.tokensBefore) == before && Accounts(events[1..], (e.messagesAfter, e.tokensAfter), after)
  }

  lemma {:induction false} AccountsAppend(events: seq<CompactionEvent>, e: CompactionEvent, before: (nat, nat))
    requires Accounts(events, before, (e.messagesBefore, e.tokensBefore))
    ensures Accounts(events + [e], before, (e.messagesAfter, e.tokensAfter))
  {
    if events == [] {
      assert (events + [e])[1..] == [];
    } else {
      assert (events + [e])[1..] == events[1..] + [e];
      AccountsAppend(events[1..], e, (events[0].messagesAfter, events[0].tokensAfter));
    }
  }

  class ContextManager {
    const c: Settings
    var messages: seq<Message>

    constructor (maxTokens: nat, messages: seq<Message>)
      ensures c == NewSettings(maxTokens) && this.messages == messages
    {
      c := NewSettings(maxTokens);
      this.messages := messages;
    }

    /** Where the tool results are, in reading order. */
    method ResultPositions() returns (positions: seq<(nat, nat)>)
      ensures |positions| == ResultsBefore(messages, |messages|)
      ensures forall j :: 0 <= j < |positions| ==> IsResultAt(messages, positions[j], j)
    {
      positions := [];
      for mi := 0 to |messages|
        invariant |positions| == ResultsBefore(messages, mi)
        invariant forall j :: 0 <= j < |positions| ==> IsResultAt(messages, positions[j], j)
      {
        for pi := 0 to |messages[mi].parts|
          invariant |positions| == Rank(messages, mi, pi)
          invariant forall j :: 0 <= j < |positions| ==> IsResultAt(messages, positions[j], j)
        {
          if messages[mi].parts[pi].ToolResult? {
            assert IsResultAt(messages, (mi, pi), |positions|);
            positions := positions + [(mi, pi)];
          }
        }
      }
    }

    method ClearToolResults()
      modifies this
      ensures messages == ClearResults(old(messages), c.keepToolResults)
    {
      ghost var before := messages;
      var positions := ResultPositions();
      ClearNothing(before);
      if |positions| <= c.keepToolResults {
        return;
      }
      var count := |positions| - c.keepToolResults;
      for j := 0 to count
        invariant messages == ClearFirst(before, j)
      {
        var (mi, pi) := positions[j];
        assert IsResultAt(before, positions[j], j);
        var m := messages[mi];
        ClearOne(before, mi, pi, j);
        messages := messages[mi := m.(parts := m.parts[pi := ClearPart(m.parts[pi])])];
      }
    }

    method ClearThinking()
      modifies this
      ensures messages == StripThinking(old(messages), c.keepThinkingTurns)
    {
      ghost var before := messages;
      var indices: seq<nat> := [];
      for i := 0 to |messages|
        invariant |indices| == ThinkingBefore(messages, i)
        invariant forall j :: 0 <= j < |indices| ==>
          indices[j] < |before| && HasThinking(before[indices[j]]) && ThinkingBefore(before, indices[j]) == j
      {
        if HasThinking(messages[i]) {
          indices := indices + [i];
        }
      }
      assert StripFirst(before, 0) == before;
      if |indices| <= c.keepThinkingTurns {
        return;
      }
      var count := |indices| - c.keepThinkingTurns;
      for j := 0 to count
        invariant messages == StripFirst(before, j)
      {
        var k := indices[j];
        StripOne(before, k, j);
        messages := messages[k := messages[k].(parts := WithoutThinking(messages[k].parts))];
      }
    }

    /** Level 3, given the model's answer: nothing changes unless the call succeeds and the
        conversation starts with a system message. */
    method Summarize(model: Model) returns (ok: bool)
      modifies this
      ensures ok == (model.Answers? && StartsWithSystem(old(messages)))
      ensures messages == if ok then Summarized(c, old(messages), model.text) else old(messages)
    {
      if messages == [] || messages[0].role != System {
        return false;
      }
      var system := messages[0];
      var rest := messages[1..];
      var _, recent := SplitPreservingPairs(rest, c.maxTokens / 4);
      if !model.Answers? {
        return false;
      }
      messages := [system, SummaryMessage(model.text)] + recent;
      return true;
    }

    method CompactEscalating(model: Model) returns (events: seq<CompactionEvent>)
      modifies this
      ensures messages == Compacted(c, old(messages), model)
      ensures events == Changes(c, old(messages), model)
      ensures Accounts(events, (|old(messages)|, Tokens(old(messages))), (|messages|, Tokens(messages)))
    {
      hide Exceeds, Tokens, ClearResults, StripThinking, Summarized;
      events := [];
      ghost var start: (nat, nat) := (|messages|, Tokens(messages));
      if Exceeds(c, messages, c.toolClearThreshold) {
        var count, tokens := |messages|, Tokens(messages);
        ClearToolResults();
        var e := CompactionEvent(ToolResults, count, |messages|, tokens, Tokens(messages));
        AccountsAppend(events, e, start);
        events := events + [e];
      }
      if Exceeds(c, messages, c.thinkingClearThreshold) {
        var count, tokens := |messages|, Tokens(messages);
        ClearThinking();
        var e := CompactionEvent(ThinkingBlocks, count, |messages|, tokens, Tokens(messages));
        AccountsAppend(events, e, start);
        events := events + [e];
      }
      if Exceeds(c, messages, c.summaryThreshold) && !model.NoModel? {
        var count, tokens := |messages|, Tokens(messages);
        var ok := Summarize(model);
        if ok {
          var e := CompactionEvent(Summary, count, |messages|, tokens, Tokens(messages));
          AccountsAppend(events, e, start);
          events := events + [e];
        }
      }
    }
  }

  /** The tool result with rank `j`. */
  predicate IsResultAt(messages: seq<Message>, at: (nat, nat), j: nat) {
    && at.0 < |messages| && at.1 < |messages[at.0].parts|
    && messages[at.0].parts[at.1].ToolResult?
    && Rank(messages, at.0, at.1) == j
  }

  lemma ClearNothing(messages: seq<Message>)
    ensures ClearFirst(messages, 0) == messages
  {
    forall mi | 0 <= mi < |messages|
      ensures ClearFirst(messages, 0)[mi] == messages[mi]
    {
      assert ClearParts(messages, mi, 0) == messages[mi].parts;
    }
  }

  lemma {:induction false} ResultsInGrows(parts: seq<Part>, a: nat, b: nat)
    requires a < b <= |parts| && parts[a].ToolResult?
    ensures ResultsIn(parts, a) < ResultsIn(parts, b)
    decreases b
  {
    if a < b - 1 {
      ResultsInGrows(parts, a, b - 1);
    }
  }

  lemma {:induction false} ResultsBeforeGrows(messages: seq<Message>, a: nat, b: nat)
    requires a < b <= |messages|
    ensures ResultsBefore(messages, a) + ResultsIn(messages[a].parts, |messages[a].parts|) <= ResultsBefore(messages, b)
    decreases b
  {
    if a < b - 1 {
      ResultsBeforeGrows(messages, a, b - 1);
    }
  }

  /** Ranks of tool results are distinct. */
  lemma RankOrders(messages: seq<Message>, mi: nat, pi: nat, mj: nat, pj: nat)
    requires mi < |messages| && pi < |messages[mi].parts| && messages[mi].parts[pi].ToolResult?
    requires mj < |messages| && pj < |messages[mj].parts| && messages[mj].parts[pj].ToolResult?
    requires Rank(messages, mi, pi) == Rank(messages, mj, pj)
    ensures mi == mj && pi == pj
  {
    if mi < mj {
      ResultsInGrows(messages[mi].parts, pi, |messages[mi].parts|);
      ResultsBeforeGrows(messages, mi, mj);
    } else if mj < mi {
      ResultsInGrows(messages[mj].parts, pj, |messages[mj].parts|);
      ResultsBeforeGrows(messages, mj, mi);
    } else if pi < pj {
      ResultsInGrows(messages[mi].parts, pi, pj);
    } else if pj < pi {
      ResultsInGrows(messages[mi].parts, pj, pi);
    }
  }

  /** Clearing the result with rank `j` takes the first `j` cleared to the first `j + 1` cleared. */
  lemma ClearOne(messages: seq<Message>, mi: nat, pi: nat, j: nat)
    requires IsResultAt(messages, (mi, pi), j)
    ensures var now := ClearFirst(messages, j);
      && pi < |now[mi].parts| && now[mi].parts[pi] == messages[mi].parts[pi]
      && ClearFirst(messages, j + 1) == now[mi := now[mi].(parts := now[mi].parts[pi := ClearPart(now[mi].parts[pi])])]
  {
    hide Rank, ClearPart;
    var now, next := ClearFirst(messages, j), ClearFirst(messages, j + 1);
    forall mk, pk | 0 <= mk < |messages| && 0 <= pk < |messages[mk].parts|
      ensures next[mk].parts[pk] ==
        if mk == mi && pk == pi then ClearPart(messages[mi].parts[pi]) else now[mk].parts[pk]
    {
      if messages[mk].parts[pk].ToolResult? && Rank(messages, mk, pk) == j {
        RankOrders(messages, mi, pi, mk, pk);
      }
    }
    forall mk | 0 <= mk < |messages|
      ensures next[mk] == now[mi := now[mi].(parts := now[mi].parts[pi := ClearPart(now[mi].parts[pi])])][mk]
    {
      assert next[mk].parts == if mk == mi then now[mi].parts[pi := ClearPart(now[mi].parts[pi])] else now[mk].parts;
    }
  }

  lemma {:induction false} ThinkingBeforeGrows(messages: seq<Message>, a: nat, b: nat)
    requires a < b <= |messages| && HasThinking(messages[a])
    ensures ThinkingBefore(messages, a) < ThinkingBefore(messages, b)
    decreases b
  {
    if a < b - 1 {
      ThinkingBeforeGrows(messages, a, b - 1);
    }
  }

  lemma StripOne(messages: seq<Message>, k: nat, j: nat)
    requires k < |messages| && HasThinking(messages[k]) && ThinkingBefore(messages, k) == j
    ensures var now := StripFirst(messages, j);
      && now[k] == messages[k]
      && StripFirst(messages, j + 1) == now[k := now[k].(parts := WithoutThinking(now[k].parts))]
  {
    hide HasThinking, ThinkingBefore, WithoutThinking;
    forall i | 0 <= i < |messages| && HasThinking(messages[i]) && ThinkingBefore(messages, i) == j
      ensures i == k
    {
      if i < k {
        ThinkingBeforeGrows(messages, i, k);
      } else if k < i {
        ThinkingBeforeGrows(messages, k, i);
      }
    }
  }
}
