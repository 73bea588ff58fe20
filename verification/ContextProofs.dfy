/** What compaction guarantees about tool-call pairs, budgets and message counts. */
module ContextProofs {
  import opened Floats
  import opened Context

  // ------------------------------------------------------------------
  // The split
  // ------------------------------------------------------------------

  predicate HoldsResults(m: Message) {
    exists i :: 0 <= i < |m.parts| && m.parts[i].ToolResult?
  }

  predicate MakesCalls(m: Message) {
    m.role == Assistant && exists i :: 0 <= i < |m.parts| && m.parts[i].ToolUse?
  }

  /** Starting a suffix at `k` separates tool results from the assistant turn with calls just before them. */
  predicate Separates(messages: seq<Message>, k: int) {
    0 < k < |messages| && HoldsResults(messages[k]) && MakesCalls(messages[k - 1])
  }

  /** No message both answers a tool call and makes the next one. */
  ghost predicate NoChainedPairs(messages: seq<Message>) {
    forall k: int {:trigger Separates(messages, k)} :: Separates(messages, k) ==> !Separates(messages, k + 1)
  }

  lemma {:induction false} TokensShrink(messages: seq<Message>, j: nat, k: nat)
    requires j <= k <= |messages|
    ensures Tokens(messages[j..]) >= Tokens(messages[k..]) + (k - j)
    decreases k - j
  {
    hide EstimatedTokens;
    if j < k {
      TokensFrom(messages, j + 1);
      TokensShrink(messages, j + 1, k);
    }
  }

  /** Starting the suffix at `k` fits the budget and cuts no pair, and no longer suffix does. */
  ghost predicate IsLongestSafeSuffix(messages: seq<Message>, budget: nat, k: nat) {
    && k <= |messages|
    && Tokens(messages[k..]) <= budget
    && !Separates(messages, k)
    && forall j: nat :: j < k ==> Separates(messages, j) || Tokens(messages[j..]) > budget
  }

  lemma {:induction false} WalkFits(messages: seq<Message>, budget: nat, i: nat)
    requires i <= |messages| && Tokens(messages[i..]) <= budget
    ensures var k := Walk(messages, budget, i);
      && Tokens(messages[k..]) <= budget
      && (forall j: nat :: j < k ==> Separates(messages, j) || Tokens(messages[j..]) > budget)
  {
    hide Separates, CutsPair, Tokens;
    if i > 0 {
      var j := if Separates(messages, i - 1) then i - 2 else i - 1;
      CutNeedsTwo(messages, i - 1);
      if Tokens(messages[j..]) > budget {
        forall l: nat | l < i
          ensures Separates(messages, l) || Tokens(messages[l..]) > budget
        {
          if l <= j {
            TokensShrink(messages, l, j);
          }
        }
      } else {
        WalkFits(messages, budget, j);
      }
    }
  }

  lemma CutNeedsTwo(messages: seq<Message>, k: int)
    ensures CutsPair(messages, k) <==> Separates(messages, k)
    ensures Separates(messages, k) ==> 0 < k < |messages|
  {
  }

  lemma {:induction false} WalkCutsNoPair(messages: seq<Message>, budget: nat, i: nat)
    requires i <= |messages| && NoChainedPairs(messages) && !Separates(messages, i)
    ensures !Separates(messages, Walk(messages, budget, i))
  {
    hide Separates, CutsPair, Tokens;
    if i > 0 {
      var j := if Separates(messages, i - 1) then i - 2 else i - 1;
      CutNeedsTwo(messages, i - 1);
      assert Separates(messages, i - 2) ==> !Separates(messages, i - 2 + 1);
      if Tokens(messages[j..]) <= budget {
        WalkCutsNoPair(messages, budget, j);
      }
    }
  }

  /** For every budget and every conversation without chained pairs, the split point is
      exactly the start of the longest suffix that fits the budget and cuts no pair. */
  lemma SplitIsLongestSafeSuffix(messages: seq<Message>, budget: nat, k: nat)
    requires NoChainedPairs(messages)
    ensures k == Walk(messages, budget, |messages|) <==> IsLongestSafeSuffix(messages, budget, k)
  {
    hide Separates, NoChainedPairs;
    var w := Walk(messages, budget, |messages|);
    CutNeedsTwo(messages, |messages|);
    assert Tokens(messages[|messages|..]) == 0;
    WalkFits(messages, budget, |messages|);
    WalkCutsNoPair(messages, budget, |messages|);
    hide Tokens, Walk;
    assert IsLongestSafeSuffix(messages, budget, w);
    assert !(IsLongestSafeSuffix(messages, budget, k) && k < w);
    assert !(IsLongestSafeSuffix(messages, budget, k) && w < k);
  }

  lemma {:induction false} WalkReaches(messages: seq<Message>, budget: nat, i: nat, t: nat)
    requires t <= i <= |messages| && !Separates(messages, t) && Tokens(messages[t..]) <= budget
    ensures Walk(messages, budget, i) == Walk(messages, budget, t)
    decreases i
  {
    hide Separates, CutsPair, Tokens;
    if t < i {
      var j := if Separates(messages, i - 1) then i - 2 else i - 1;
      CutNeedsTwo(messages, i - 1);
      assert t <= j;
      TokensShrink(messages, t, j);
      WalkReaches(messages, budget, j, t);
    }
  }

  /** With the budget of the suffix that starts in the middle of the last chain, the split cuts a pair. */
  lemma ChainIsCut(messages: seq<Message>, k: nat)
    requires Separates(messages, k) && Separates(messages, k + 1) && !Separates(messages, k + 2)
    ensures Separates(messages, Walk(messages, Tokens(messages[k..]), |messages|))
  {
    var budget := Tokens(messages[k..]);
    CutNeedsTwo(messages, k);
    CutNeedsTwo(messages, k + 1);
    TokensShrink(messages, k, k + 2);
    WalkReaches(messages, budget, |messages|, k + 2);
    WalkStep(messages, budget, k + 2);
    WalkStep(messages, budget, k);
    CutNeedsTwo(messages, k - 1);
    TokensShrink(messages, k - 1, k);
    if Separates(messages, k - 1) {
      TokensShrink(messages, k - 2, k);
    }
  }

  lemma {:induction false} LastChain(messages: seq<Message>, from: nat) returns (k: nat)
    requires Separates(messages, from) && Separates(messages, from + 1)
    ensures Separates(messages, k) && Separates(messages, k + 1) && !Separates(messages, k + 2)
    decreases |messages| - from
  {
    hide HoldsResults, MakesCalls;
    if Separates(messages, from + 2) {
      k := LastChain(messages, from + 1);
    } else {
      k := from;
    }
  }

  /** The code's own assumption, made exact: the split never cuts a pair, whatever the
      budget, if and only if the conversation has no chained pairs. */
  lemma SplitNeverCutsIffUnchained(messages: seq<Message>)
    ensures (forall budget: nat :: !Separates(messages, Walk(messages, budget, |messages|))) <==> NoChainedPairs(messages)
  {
    hide Separates, Walk;
    if NoChainedPairs(messages) {
      CutNeedsTwo(messages, |messages|);
      forall budget: nat
        ensures !Separates(messages, Walk(messages, budget, |messages|))
      {
        WalkCutsNoPair(messages, budget, |messages|);
      }
    } else {
      var i: int :| Separates(messages, i) && Separates(messages, i + 1);
      CutNeedsTwo(messages, i);
      var k := LastChain(messages, i);
      CutNeedsTwo(messages, k);
      ChainIsCut(messages, k);
      var budget := Tokens(messages[k..]);
      assert Separates(messages, Walk(messages, budget, |messages|));
    }
  }

  // ------------------------------------------------------------------
  // Pairing survives compaction
  // ------------------------------------------------------------------

  predicate Offers(m: Message, id: string) {
    exists i :: 0 <= i < |m.parts| && m.parts[i].ToolUse? && m.parts[i].id == id
  }

  /** Every tool result of message `k` answers a call made in the assistant turn just before it. */
  predicate Answered(messages: seq<Message>, k: nat)
    requires k < |messages|
  {
    HoldsResults(messages[k]) ==>
      && k > 0 && messages[k - 1].role == Assistant
      && forall i :: 0 <= i < |messages[k].parts| && messages[k].parts[i].ToolResult? ==>
           Offers(messages[k - 1], messages[k].parts[i].toolUseId)
  }

  predicate WellPaired(messages: seq<Message>) {
    forall k :: 0 <= k < |messages| ==> Answered(messages, k)
  }

  lemma RestUnchained(messages: seq<Message>)
    requires NoChainedPairs(messages) && messages != []
    ensures NoChainedPairs(messages[1..])
  {
    var rest := messages[1..];
    forall k: int | Separates(rest, k)
      ensures !Separates(rest, k + 1)
    {
      assert Separates(messages, k + 1);
      assert Separates(rest, k + 1) ==> Separates(messages, k + 2);
    }
  }

  /** The same message as far as pairing goes. */
  ghost predicate SamePairing(m: Message, n: Message) {
    && m.role == n.role
    && (forall id :: Offers(m, id) <==> Offers(n, id))
    && (forall i {:trigger n.parts[i]} :: 0 <= i < |n.parts| && n.parts[i].ToolResult? ==>
          exists j :: 0 <= j < |m.parts| && m.parts[j].ToolResult? && m.parts[j].toolUseId == n.parts[i].toolUseId)
  }

  lemma AnsweredTransfers(before: seq<Message>, after: seq<Message>, k: nat)
    requires |before| == |after| && k < |before| && Answered(before, k)
    requires SamePairing(before[k], after[k]) && (k > 0 ==> SamePairing(before[k - 1], after[k - 1]))
    ensures Answered(after, k)
  {
    if HoldsResults(after[k]) {
      var i :| 0 <= i < |after[k].parts| && after[k].parts[i].ToolResult?;
      assert HoldsResults(before[k]);
      forall l | 0 <= l < |after[k].parts| && after[k].parts[l].ToolResult?
        ensures Offers(after[k - 1], after[k].parts[l].toolUseId)
      {
        var parts := before[k].parts;
        var j :| 0 <= j < |parts| && parts[j].ToolResult? && parts[j].toolUseId == after[k].parts[l].toolUseId;
        assert Offers(before[k - 1], before[k].parts[j].toolUseId);
      }
    }
  }

  lemma ClearKeepsPairing(messages: seq<Message>, n: nat, k: nat)
    requires k < |messages|
    ensures SamePairing(messages[k], ClearFirst(messages, n)[k])
  {
    var m, m' := messages[k], ClearFirst(messages, n)[k];
    hide Rank, ResultsIn, ResultsBefore, Decimal;
    forall id
      ensures Offers(m, id) <==> Offers(m', id)
    {
      if Offers(m, id) {
        var i :| 0 <= i < |m.parts| && m.parts[i].ToolUse? && m.parts[i].id == id;
        assert m'.parts[i] == m.parts[i];
      }
      if Offers(m', id) {
        var i :| 0 <= i < |m'.parts| && m'.parts[i].ToolUse? && m'.parts[i].id == id;
        assert m'.parts[i] == m.parts[i];
      }
    }
    forall i | 0 <= i < |m'.parts| && m'.parts[i].ToolResult?
      ensures exists j :: 0 <= j < |m.parts| && m.parts[j].ToolResult? && m.parts[j].toolUseId == m'.parts[i].toolUseId
    {
      assert m.parts[i].ToolResult? && m.parts[i].toolUseId == m'.parts[i].toolUseId;
    }
  }

  lemma {:induction false} WithoutThinkingKeeps(parts: seq<Part>, p: Part)
    ensures p in WithoutThinking(parts) <==> p in parts && !p.Thinking?
  {
    if parts != [] {
      WithoutThinkingKeeps(parts[..|parts| - 1], p);
      assert parts == parts[..|parts| - 1] + [parts[|parts| - 1]];
    }
  }

  lemma StripKeepsPairing(messages: seq<Message>, n: nat, k: nat)
    requires k < |messages|
    ensures SamePairing(messages[k], StripFirst(messages, n)[k])
  {
    var m, m' := messages[k], StripFirst(messages, n)[k];
    hide ThinkingBefore, HasThinking, WithoutThinking;
    if m != m' {
      forall id
        ensures Offers(m, id) <==> Offers(m', id)
      {
        if Offers(m, id) {
          var i :| 0 <= i < |m.parts| && m.parts[i].ToolUse? && m.parts[i].id == id;
          WithoutThinkingKeeps(m.parts, m.parts[i]);
          var j :| 0 <= j < |m'.parts| && m'.parts[j] == m.parts[i];
        }
        if Offers(m', id) {
          var i :| 0 <= i < |m'.parts| && m'.parts[i].ToolUse? && m'.parts[i].id == id;
          WithoutThinkingKeeps(m.parts, m'.parts[i]);
          var j :| 0 <= j < |m.parts| && m.parts[j] == m'.parts[i];
        }
      }
      forall i | 0 <= i < |m'.parts| && m'.parts[i].ToolResult?
        ensures exists j :: 0 <= j < |m.parts| && m.parts[j].ToolResult? && m.parts[j].toolUseId == m'.parts[i].toolUseId
      {
        WithoutThinkingKeeps(m.parts, m'.parts[i]);
        var j :| 0 <= j < |m.parts| && m.parts[j] == m'.parts[i];
      }
    } else {
      forall i | 0 <= i < |m'.parts| && m'.parts[i].ToolResult?
        ensures exists j :: 0 <= j < |m.parts| && m.parts[j].ToolResult? && m.parts[j].toolUseId == m'.parts[i].toolUseId
      {
        assert m.parts[i] == m'.parts[i];
      }
    }
  }

  lemma CutTransfers(before: seq<Message>, after: seq<Message>, k: int)
    requires |before| == |after| && Separates(after, k)
    requires SamePairing(before[k], after[k]) && SamePairing(before[k - 1], after[k - 1])
    ensures Separates(before, k)
  {
    var i :| 0 <= i < |after[k].parts| && after[k].parts[i].ToolResult?;
    var j :| 0 <= j < |after[k - 1].parts| && after[k - 1].parts[j].ToolUse?;
    assert Offers(after[k - 1], after[k - 1].parts[j].id);
  }

  /** Rewriting messages in place without touching the pairing keeps both conditions. */
  lemma SamePairingKeeps(before: seq<Message>, after: seq<Message>)
    requires WellPaired(before) && |before| == |after|
    requires forall k :: 0 <= k < |before| ==> SamePairing(before[k], after[k])
    ensures WellPaired(after) && (NoChainedPairs(before) ==> NoChainedPairs(after))
  {
    hide SamePairing, Answered;
    forall k | 0 <= k < |after|
      ensures Answered(after, k)
    {
      assert Answered(before, k);
      AnsweredTransfers(before, after, k);
    }
    if NoChainedPairs(before) {
      forall k: int | Separates(after, k)
        ensures !Separates(after, k + 1)
      {
        CutTransfers(before, after, k);
        if Separates(after, k + 1) {
          CutTransfers(before, after, k + 1);
        }
      }
    }
  }

  lemma Level1KeepsPairing(c: Settings, messages: seq<Message>)
    requires WellPaired(messages)
    ensures var l := Level1(c, messages);
      && |l| == |messages| && WellPaired(l) && (NoChainedPairs(messages) ==> NoChainedPairs(l))
      && (StartsWithSystem(l) <==> StartsWithSystem(messages))
  {
    hide SamePairing, WellPaired, NoChainedPairs, Exceeds, ResultsBefore;
    var l := Level1(c, messages);
    if l != messages {
      forall k | 0 <= k < |messages|
        ensures SamePairing(messages[k], l[k])
      {
        ClearKeepsPairing(messages, Excess(ResultsBefore(messages, |messages|), c.keepToolResults), k);
      }
      SamePairingKeeps(messages, l);
    }
  }

  lemma Level2KeepsPairing(c: Settings, messages: seq<Message>)
    requires WellPaired(messages)
    ensures var l := Level2(c, messages);
      && |l| == |messages| && WellPaired(l) && (NoChainedPairs(messages) ==> NoChainedPairs(l))
      && (StartsWithSystem(l) <==> StartsWithSystem(messages))
  {
    hide SamePairing, WellPaired, NoChainedPairs, Exceeds, ThinkingBefore;
    var l := Level2(c, messages);
    if l != messages {
      forall k | 0 <= k < |messages|
        ensures SamePairing(messages[k], l[k])
      {
        StripKeepsPairing(messages, Excess(ThinkingBefore(messages, |messages|), c.keepThinkingTurns), k);
      }
      SamePairingKeeps(messages, l);
    }
  }

  lemma SummaryKeepsPairing(c: Settings, messages: seq<Message>, text: Option<string>)
    requires WellPaired(messages) && NoChainedPairs(messages) && StartsWithSystem(messages)
    ensures WellPaired(Summarized(c, messages, text)) && NoChainedPairs(Summarized(c, messages, text))
  {
    var rest := messages[1..];
    var k := Walk(rest, c.maxTokens / 4, |rest|);
    RestUnchained(messages);
    CutNeedsTwo(rest, |rest|);
    hide Walk, Separates, NoChainedPairs, WellPaired, HoldsResults, SummaryMessage;
    WalkCutsNoPair(rest, c.maxTokens / 4, |rest|);
    if k < |rest| {
      FirstRecentIsNoAnswer(messages, k);
    }
    SummaryHoldsText(text);
    SuffixKeepsPairing(messages, SummaryMessage(text), k + 1);
    SuffixUnchained(messages, SummaryMessage(text), k + 1);
    assert rest[k..] == messages[k + 1..];
  }

  lemma SummaryHoldsText(text: Option<string>)
    ensures !HoldsResults(SummaryMessage(text))
  {
  }

  lemma SuffixKeepsPairing(messages: seq<Message>, second: Message, k: nat)
    requires WellPaired(messages) && StartsWithSystem(messages) && !HoldsResults(second)
    requires 0 < k <= |messages| && (k < |messages| ==> !HoldsResults(messages[k]))
    ensures WellPaired([messages[0], second] + messages[k..])
  {
    var out := [messages[0], second] + messages[k..];
    assert Answered(messages, 0);
    hide HoldsResults;
    forall q | 0 <= q < |out|
      ensures Answered(out, q)
    {
      if q >= 3 {
        hide WellPaired, Answered;
        AnsweredShifts(messages, k + q - 2, out, q);
      }
    }
  }

  lemma SuffixUnchained(messages: seq<Message>, second: Message, k: nat)
    requires NoChainedPairs(messages) && messages != [] && !HoldsResults(second)
    requires 0 < k <= |messages| && (k < |messages| ==> !HoldsResults(messages[k]))
    ensures NoChainedPairs([messages[0], second] + messages[k..])
  {
    var out := [messages[0], second] + messages[k..];
    hide HoldsResults, MakesCalls;
    forall q: int | Separates(out, q)
      ensures !Separates(out, q + 1)
    {
      assert q >= 3;
      assert Separates(messages, k + q - 2);
      assert Separates(out, q + 1) ==> Separates(messages, k + q - 2 + 1);
    }
  }

  lemma AnsweredShifts(messages: seq<Message>, k: nat, out: seq<Message>, q: nat)
    requires WellPaired(messages) && 0 < k < |messages| && 0 < q < |out|
    requires out[q] == messages[k] && out[q - 1] == messages[k - 1]
    ensures Answered(out, q)
  {
    assert Answered(messages, k);
  }

  lemma AnswerIsCut(messages: seq<Message>, k: nat)
    requires WellPaired(messages) && 0 < k < |messages| - 1 && HoldsResults(messages[k + 1])
    ensures Separates(messages[1..], k)
  {
    assert Answered(messages, k + 1);
    var i :| 0 <= i < |messages[k + 1].parts| && messages[k + 1].parts[i].ToolResult?;
    assert Offers(messages[k], messages[k + 1].parts[i].toolUseId);
    assert messages[1..][k] == messages[k + 1] && messages[1..][k - 1] == messages[k];
  }

  /** A suffix that cuts no pair cannot start with tool results. */
  lemma FirstRecentIsNoAnswer(messages: seq<Message>, k: nat)
    requires WellPaired(messages) && StartsWithSystem(messages) && k < |messages| - 1
    requires !Separates(messages[1..], k)
    ensures !HoldsResults(messages[k + 1])
  {
    hide Separates;
    if k == 0 {
      assert Answered(messages, 1);
    } else if HoldsResults(messages[k + 1]) {
      AnswerIsCut(messages, k);
    }
  }

  /** Compaction preserves pairing, whichever levels fire and whatever the model answers: if
      every tool result answers the assistant turn just before it and no message both answers
      and calls tools, the same holds of the output, so it holds through any number of
      compactions; levels 1 and 2 keep the message count; a leading system message is kept. */
  lemma CompactionKeepsPairing(c: Settings, messages: seq<Message>, model: Model)
    requires WellPaired(messages) && NoChainedPairs(messages)
    ensures var out := Compacted(c, messages, model);
      && WellPaired(out) && NoChainedPairs(out)
      && |Level2(c, Level1(c, messages))| == |Level1(c, messages)| == |messages|
      && (StartsWithSystem(messages) ==> out != [] && out[0] == messages[0])
  {
    var l1 := Level1(c, messages);
    var l2 := Level2(c, l1);
    Level1KeepsPairing(c, messages);
    Level2KeepsPairing(c, l1);
    if StartsWithSystem(messages) {
      SystemUntouched(c, messages);
      SystemUntouched(c, l1);
    }
    hide WellPaired, NoChainedPairs, Level1, Level2, Summarized, Exceeds;
    if StartsWithSystem(l2) && model.Answers? {
      SummaryKeepsPairing(c, l2, model.text);
      SummaryFirst(c, l2, model.text);
    }
  }

  /** A summary whose recent part starts in the middle of a pair leaves its results unanswered. */
  lemma CutIsUnpaired(c: Settings, messages: seq<Message>, text: Option<string>)
    requires StartsWithSystem(messages)
    requires var rest := messages[1..]; Separates(rest, Walk(rest, c.maxTokens / 4, |rest|))
    ensures !WellPaired(Summarized(c, messages, text))
  {
    var rest := messages[1..];
    AfterSummary(messages[0], SummaryMessage(text), rest, Walk(rest, c.maxTokens / 4, |rest|));
  }

  lemma AfterSummary(system: Message, summary: Message, rest: seq<Message>, k: nat)
    requires Separates(rest, k) && summary.role == User
    ensures !WellPaired([system, summary] + rest[k..])
  {
    hide HoldsResults;
    var out := [system, summary] + rest[k..];
    assert out[2] == rest[k];
    assert !Answered(out, 2);
  }

  /** Settings under which only the summary fires, with this budget for the recent part. */
  function OnlySummary(messages: seq<Message>, budget: nat): Settings {
    Settings(4 * budget, Tokens(messages) as real, Tokens(messages) as real, -1.0, 0, 0)
  }

  lemma OnlySummaryFires(messages: seq<Message>, budget: nat, text: Option<string>)
    requires StartsWithSystem(messages) && budget > 0
    ensures var c := OnlySummary(messages, budget); Compacted(c, messages, Answers(text)) == Summarized(c, messages, text)
  {
    var c := OnlySummary(messages, budget);
    assert !Exceeds(c, messages, c.toolClearThreshold) && Exceeds(c, messages, c.summaryThreshold) by {
      hide Tokens;
      Stretch(Tokens(messages) as real, c.maxTokens as real);
    }
    hide Tokens, Summarized, ClearResults, StripThinking, Exceeds;
  }

  lemma Stretch(n: real, b: real)
    requires n >= 0.0 && b >= 1.0
    ensures n <= n * b && n > -1.0 * b
  {
    assert n * (b - 1.0) >= 0.0;
  }

  lemma ChainIsUnpaired(messages: seq<Message>) returns (c: Settings)
    requires StartsWithSystem(messages) && !NoChainedPairs(messages)
    ensures !WellPaired(Compacted(c, messages, Answers(None)))
  {
    var rest := messages[1..];
    hide Walk, Tokens, WellPaired, Summarized, OnlySummary, Compacted;
    var i: int :| Separates(messages, i) && Separates(messages, i + 1);
    assert i > 1;
    assert Separates(rest, i - 1) && Separates(rest, i - 1 + 1);
    var k := LastChain(rest, i - 1);
    ChainIsCut(rest, k);
    var budget := Tokens(rest[k..]);
    TokensShrink(rest, k, |rest|);
    c := OnlySummary(messages, budget);
    OnlySummaryBudget(messages, budget);
    OnlySummaryFires(messages, budget, None);
    CutIsUnpaired(c, messages, None);
  }

  lemma OnlySummaryBudget(messages: seq<Message>, budget: nat)
    ensures OnlySummary(messages, budget).maxTokens / 4 == budget
  {
  }

  /** Every compaction leaves every tool result answered. */
  ghost predicate AlwaysPaired(messages: seq<Message>) {
    forall c: Settings, model: Model :: WellPaired(Compacted(c, messages, model))
  }

  /** The exact condition: whatever the settings and the model, compacting a well-paired
      conversation leaves it well paired if and only if it has no chained pairs or does not
      start with a system message, in which case it is never summarized. */
  lemma AlwaysPairedIffUnchained(messages: seq<Message>)
    requires WellPaired(messages)
    ensures AlwaysPaired(messages) <==> (StartsWithSystem(messages) ==> NoChainedPairs(messages))
  {
    hide Walk, Tokens, WellPaired, NoChainedPairs, Level1, Level2, Summarized, Exceeds;
    if StartsWithSystem(messages) && !NoChainedPairs(messages) {
      var c := ChainIsUnpaired(messages);
    } else {
      forall c: Settings, model: Model
        ensures WellPaired(Compacted(c, messages, model))
      {
        if StartsWithSystem(messages) {
          CompactionKeepsPairing(c, messages, model);
        } else {
          Level1KeepsPairing(c, messages);
          Level2KeepsPairing(c, Level1(c, messages));
        }
      }
    }
  }

  lemma SummaryFirst(c: Settings, messages: seq<Message>, text: Option<string>)
    requires StartsWithSystem(messages)
    ensures Summarized(c, messages, text) != [] && Summarized(c, messages, text)[0] == messages[0]
  {
    hide Walk;
  }

  lemma SystemUntouched(c: Settings, messages: seq<Message>)
    requires WellPaired(messages) && StartsWithSystem(messages)
    ensures StartsWithSystem(Level1(c, messages)) && Level1(c, messages)[0] == messages[0]
    ensures StartsWithSystem(Level2(c, messages)) && Level2(c, messages)[0] == messages[0]
  {
    assert Answered(messages, 0);
    hide Rank, ResultsBefore, ThinkingBefore, Exceeds;
    var n := Excess(ResultsBefore(messages, |messages|), c.keepToolResults);
    assert ClearParts(messages, 0, n) == messages[0].parts;
  }

  /** When level 3 fires, what remains is the system message, the summary, and no more than
      a quarter of the budget. */
  lemma SummaryFitsBudget(c: Settings, messages: seq<Message>, text: Option<string>)
    requires StartsWithSystem(messages)
    ensures Tokens(Summarized(c, messages, text))
         <= EstimatedTokens(messages[0]) + EstimatedTokens(SummaryMessage(text)) + c.maxTokens / 4
  {
    var rest := messages[1..];
    WalkFits(rest, c.maxTokens / 4, |rest|);
    var recent := rest[Walk(rest, c.maxTokens / 4, |rest|)..];
    var out := Summarized(c, messages, text);
    hide EstimatedTokens, Walk;
    assert out[1..] == [SummaryMessage(text)] + recent;
    assert out[1..][1..] == recent;
  }

  /** The message is one user text that ends with the model's. */
  predicate Tells(m: Message, text: Option<string>) {
    && m.role == User && |m.parts| == 1 && m.parts[0].Text?
    && (text.Some? ==>
          |text.value| <= |m.parts[0].text| && m.parts[0].text[|m.parts[0].text| - |text.value|..] == text.value)
  }

  /** Its recent part is the longest suffix of the rest that cuts no pair and fits in a quarter of the
      budget, unless pairs are chained; the summary holds the model's text. */
  lemma SummaryKeepsMostRecent(c: Settings, messages: seq<Message>, text: Option<string>)
    requires StartsWithSystem(messages) && NoChainedPairs(messages[1..])
    ensures var out := Summarized(c, messages, text);
      && |out| >= 2 && out[0] == messages[0] && Tells(out[1], text)
      && |out| - 2 <= |messages| - 1
      && var k := |messages| - 1 - (|out| - 2);
         out[2..] == messages[1..][k..] && IsLongestSafeSuffix(messages[1..], c.maxTokens / 4, k)
  {
    var rest := messages[1..];
    var k := Walk(rest, c.maxTokens / 4, |rest|);
    SplitIsLongestSafeSuffix(rest, c.maxTokens / 4, k);
    SummaryTells(text);
    hide Walk, IsLongestSafeSuffix, NoChainedPairs, SummaryMessage, Tells;
    assert Summarized(c, messages, text)[2..] == rest[k..];
  }

  lemma SummaryTells(text: Option<string>)
    ensures Tells(SummaryMessage(text), text)
  {
  }

  // ------------------------------------------------------------------
  // The size of a cleared result
  // ------------------------------------------------------------------

  lemma {:induction false} DecimalLength(n: nat)
    ensures |Decimal(n)| >= 1 && (n < 10 ==> |Decimal(n)| == 1) && (n >= 1 ==> |Decimal(n)| <= n)
  {
    if n >= 10 {
      DecimalLength(n / 10);
    }
  }

  /** Clearing a tool result makes it longer exactly when its content is shorter than the
      shortest placeholder, 20 characters. */
  lemma ClearingGrowsIffShort(p: Part)
    requires p.ToolResult?
    ensures PartLength(ClearPart(p)) > PartLength(p) <==> |p.content| < 20
  {
    var n := EstimateText(p.content);
    DecimalLength(n);
    assert n < 0x4000_0000 && (|p.content| < U32 ==> n == |p.content| / 4);
    assert |"[cleared: ~"| == 11 && |" tokens]"| == 8;
    hide Decimal;
  }

  predicate AllDigits(s: string) {
    forall i :: 0 <= i < |s| ==> '0' <= s[i] <= '9'
  }

  /** The number a string of digits stands for. */
  function Value(digits: string): nat
    requires AllDigits(digits)
  {
    if digits == [] then 0
    else 10 * Value(digits[..|digits| - 1]) + (digits[|digits| - 1] as int - '0' as int)
  }

  lemma {:induction false} DecimalIsValue(n: nat)
    ensures AllDigits(Decimal(n)) && Value(Decimal(n)) == n
  {
    DigitAt(n % 10);
    if n < 10 {
      assert Decimal(n)[..0] == [];
    } else {
      DecimalIsValue(n / 10);
      assert Decimal(n)[..|Decimal(n)| - 1] == Decimal(n / 10);
    }
  }

  lemma DigitAt(d: nat)
    requires d < 10
    ensures '0' <= "0123456789"[d] <= '9' && "0123456789"[d] as int - '0' as int == d
  {
  }

  /** `content` tells, in digits, a quarter of `length`, which a 32-bit number can hold. */
  predicate Placeholder(content: string, digits: string, length: nat) {
    && content == "[cleared: ~" + digits + " tokens]" && AllDigits(digits)
    && (length < 0x1_0000_0000 ==> 4 * Value(digits) <= length < 4 * Value(digits) + 4)
  }

  /** A cleared result keeps everything but its content, which becomes a placeholder that tells a
      quarter of the length it had. */
  lemma ClearedTellsItsSize(p: Part)
    requires p.ToolResult?
    ensures var q := ClearPart(p);
      && q.ToolResult? && q.toolUseId == p.toolUseId && q.name == p.name && q.isError == p.isError
      && exists digits :: Placeholder(q.content, digits, |p.content|)
  {
    var n := EstimateText(p.content);
    DecimalIsValue(n);
    assert |p.content| < U32 ==> n == |p.content| / 4;
    var digits := Decimal(n);
    assert ClearPart(p).content == "[cleared: ~" + digits + " tokens]";
    hide Decimal, Value, AllDigits, EstimateText, ClearPart;
    assert Placeholder(ClearPart(p).content, digits, |p.content|);
  }

  // ------------------------------------------------------------------
  // What the first two levels keep
  // ------------------------------------------------------------------

  /** Tool results among the parts from `n` on. */
  function ResultsFrom(parts: seq<Part>, n: nat): nat
    requires n <= |parts|
    decreases |parts| - n
  {
    if n == |parts| then 0 else ResultsFrom(parts, n + 1) + if parts[n].ToolResult? then 1 else 0
  }

  /** Tool results in the messages from `n` on. */
  function ResultsAfter(messages: seq<Message>, n: nat): nat
    requires n <= |messages|
    decreases |messages| - n
  {
    if n == |messages| then 0 else ResultsFrom(messages[n].parts, 0) + ResultsAfter(messages, n + 1)
  }

  lemma {:induction false} PartsSplit(parts: seq<Part>, n: nat)
    requires n <= |parts|
    ensures ResultsIn(parts, n) + ResultsFrom(parts, n) == ResultsIn(parts, |parts|)
    decreases |parts| - n
  {
    if n < |parts| {
      PartsSplit(parts, n + 1);
    }
  }

  lemma {:induction false} MessagesSplit(messages: seq<Message>, n: nat)
    requires n <= |messages|
    ensures ResultsBefore(messages, n) + ResultsAfter(messages, n) == ResultsBefore(messages, |messages|)
    decreases |messages| - n
  {
    if n < |messages| {
      MessagesSplit(messages, n + 1);
      PartsSplit(messages[n].parts, 0);
      hide ResultsFrom;
    }
  }

  /** Level 1, result by result: a tool result is replaced by its placeholder if and only if at least `keep`
      others come after it; every other part, every role and every position stays. */
  lemma ClearedIffEnoughFollow(messages: seq<Message>, keep: nat, mi: nat, pi: nat)
    requires mi < |messages| && pi < |messages[mi].parts|
    ensures var out := ClearResults(messages, keep);
      var p := messages[mi].parts[pi];
      && |out| == |messages| && out[mi].role == messages[mi].role && |out[mi].parts| == |messages[mi].parts|
      && (out[mi].parts[pi]
          == if p.ToolResult? && ResultsFrom(messages[mi].parts, pi + 1) + ResultsAfter(messages, mi + 1) >= keep
             then ClearPart(p) else p)
  {
    if messages[mi].parts[pi].ToolResult? {
      RankFromEnd(messages, mi, pi);
    }
    hide Rank, ResultsBefore, ResultsFrom, ResultsAfter, ClearPart;
  }

  lemma RankFromEnd(messages: seq<Message>, mi: nat, pi: nat)
    requires mi < |messages| && pi < |messages[mi].parts| && messages[mi].parts[pi].ToolResult?
    ensures Rank(messages, mi, pi) + 1 + ResultsFrom(messages[mi].parts, pi + 1) + ResultsAfter(messages, mi + 1)
         == ResultsBefore(messages, |messages|)
  {
    MessagesSplit(messages, mi + 1);
    PartsSplit(messages[mi].parts, pi + 1);
    hide ResultsFrom, ResultsAfter;
  }

  /** An assistant turn with a thinking part. */
  predicate Thinks(m: Message) {
    m.role == Assistant && exists i :: 0 <= i < |m.parts| && m.parts[i].Thinking?
  }

  /** Assistant turns that hold thinking, from `n` on. */
  function ThinkingAfter(messages: seq<Message>, n: nat): nat
    requires n <= |messages|
    decreases |messages| - n
  {
    if n == |messages| then 0 else ThinkingAfter(messages, n + 1) + if Thinks(messages[n]) then 1 else 0
  }

  lemma {:induction false} ThinkingSplit(messages: seq<Message>, n: nat)
    requires n <= |messages|
    ensures ThinkingBefore(messages, n) + ThinkingAfter(messages, n) == ThinkingBefore(messages, |messages|)
    decreases |messages| - n
  {
    if n < |messages| {
      ThinkingSplit(messages, n + 1);
      assert HasThinking(messages[n]) <==> Thinks(messages[n]);
      hide HasThinking, Thinks;
    }
  }

  /** Level 2, turn by turn: an assistant turn loses its thinking if and only if at least `keep` later turns
      hold some; every other message stays. */
  lemma StrippedIffEnoughFollow(messages: seq<Message>, keep: nat, k: nat)
    requires k < |messages|
    ensures var out := StripThinking(messages, keep);
      && |out| == |messages|
      && out[k] == if Thinks(messages[k]) && ThinkingAfter(messages, k + 1) >= keep
                   then messages[k].(parts := WithoutThinking(messages[k].parts)) else messages[k]
  {
    ThinkingSplit(messages, k + 1);
    assert HasThinking(messages[k]) <==> Thinks(messages[k]);
    hide ThinkingAfter, HasThinking, Thinks, WithoutThinking;
  }

  /** Losing thinking drops the thinking parts and keeps all others in order. */
  lemma {:induction false} ThinkingPartsGo(a: seq<Part>, p: Part, b: seq<Part>)
    ensures WithoutThinking(a + b) == WithoutThinking(a) + WithoutThinking(b)
    ensures WithoutThinking([p]) == if p.Thinking? then [] else [p]
    decreases |b|
  {
    assert [p][..0] == [];
    if b == [] {
      assert a + b == a;
    } else {
      var n := |b| - 1;
      ThinkingPartsGo(a, p, b[..n]);
      assert (a + b)[..|a + b| - 1] == a + b[..n];
    }
  }

  // ------------------------------------------------------------------
  // The default thresholds
  // ------------------------------------------------------------------

  /** A new manager with a budget of `b` tokens clears all but the last five tool results above half of it,
      then all but the last two turns' thinking above 65 percent, and then summarizes above
      85 percent, each measured after the level before. */
  lemma DefaultLevels(b: nat, messages: seq<Message>, model: Model)
    ensures var l1 := if 2 * Tokens(messages) > b then ClearResults(messages, 5) else messages;
      var l2 := if 20 * Tokens(l1) > 13 * b then StripThinking(l1, 2) else l1;
      Compacted(NewSettings(b), messages, model)
      == if 20 * Tokens(l2) > 17 * b && model.Answers? && StartsWithSystem(l2)
         then Summarized(NewSettings(b), l2, model.text) else l2
  {
    ExceedsMeans(b, messages);
    ExceedsMeans(b, Level1(NewSettings(b), messages));
    ExceedsMeans(b, Level2(NewSettings(b), Level1(NewSettings(b), messages)));
    hide Exceeds, Tokens, ClearResults, StripThinking, Summarized;
  }

  lemma ExceedsMeans(b: nat, messages: seq<Message>)
    ensures var c := NewSettings(b);
      && (Exceeds(c, messages, c.toolClearThreshold) <==> 2 * Tokens(messages) > b)
      && (Exceeds(c, messages, c.thinkingClearThreshold) <==> 20 * Tokens(messages) > 13 * b)
      && (Exceeds(c, messages, c.summaryThreshold) <==> 20 * Tokens(messages) > 17 * b)
  {
  }

  /** All that counts of a part; an image stands for 256 characters. */
  function Written(p: Part): string {
    match p
    case Text(text) => text
    case ToolUse(id, name, input) => id + name + input
    case ToolResult(id, _, content, _) => id + content
    case Thinking(thinking, _) => thinking
    case Image(_, _) => seq(256, _ => ' ')
  }

  function Transcript(parts: seq<Part>): string {
    if parts == [] then [] else Written(parts[0]) + Transcript(parts[1..])
  }

  lemma {:induction false} LengthIsTranscript(parts: seq<Part>, k: nat)
    requires k <= |parts|
    ensures PartsLength(parts[..k]) + |Transcript(parts[k..])| == |Transcript(parts)|
  {
    if k == 0 {
      assert parts[..0] == [] && parts[0..] == parts;
    } else {
      LengthIsTranscript(parts, k - 1);
      assert parts[..k][..k - 1] == parts[..k - 1] && parts[k - 1..][1..] == parts[k..];
      assert PartLength(parts[k - 1]) == |Written(parts[k - 1])|;
      hide PartLength, Written;
    }
  }

  /** Four characters of the transcript make a token, counted modulo two to the power of 32, and
      every message costs at least one. */
  lemma EstimateIsQuarter(m: Message)
    ensures var n, length := EstimatedTokens(m), |Transcript(m.parts)|;
      && 1 <= n < 0x1_0000_0000
      && (4 <= length < 0x4_0000_0000 ==> 4 * n <= length < 4 * n + 4)
      && ((length / 4 - n) % 0x1_0000_0000 == 0 || (n == 1 && (length / 4) % 0x1_0000_0000 == 0))
  {
    LengthIsTranscript(m.parts, |m.parts|);
    assert m.parts[..|m.parts|] == m.parts && m.parts[|m.parts|..] == [];
    hide PartsLength, Transcript;
  }
}
