/** Prompt construction of backend/utils/prompt_builder.py: the token estimate, the
    history trim, the chat-block format and the prompt assembly. */
module PromptBuilder {
  import opened Text

  /** A stored message as the prompt builder sees it: a role name and nullable content. */
  datatype HistoryMessage = HistoryMessage(role: string, content: Option<string>)

  /** A history entry that survives into the prompt: its role and stripped, non-empty content. */
  datatype ChatTurn = ChatTurn(role: string, content: string)

  const MAX_HISTORY_TOKENS := 1024
  const IM_START := "<|im_start|>"
  const IM_END := "<|im_end|>"
  const ASSISTANT_OPEN := "<|im_start|>assistant\n"

  // ---------------------------------------------------------------------
  // Token estimate
  // ---------------------------------------------------------------------

  /** A character of the CJK Unified Ideographs block, U+4E00 to U+9FFF. */
  predicate IsCjk(c: char) {
    '\U{4E00}' <= c <= '\U{9FFF}'
  }

  function CjkCount(s: string): (n: nat)
    ensures n <= |s|
    ensures n == 0 <==> forall i :: 0 <= i < |s| ==> !IsCjk(s[i])
  {
    if s == [] then 0
    else
      var rest := CjkCount(s[1..]);
      assert forall i :: 1 <= i < |s| ==> s[i] == s[1..][i - 1];
      (if IsCjk(s[0]) then 1 else 0) + rest
  }

  /** estimate_tokens: nothing for a missing or empty text; otherwise two per CJK
      character plus one per whitespace-separated word. */
  function EstimateTokens(text: Option<string>): (n: nat)
    ensures !Truthy(text) ==> n == 0
    ensures Truthy(text) ==> n == 2 * CjkCount(text.value) + |Words(text.value)|
  {
    if !Truthy(text) then 0 else 2 * CjkCount(text.value) + |Words(text.value)|
  }

  /** The estimate is zero exactly for a missing text or one made only of whitespace. */
  lemma EstimateZeroIff(text: Option<string>)
    ensures EstimateTokens(text) == 0 <==> text.None? || AllSpace(text.value)
  {
    if text.Some? {
      WordsEmptyIffAllSpace(text.value);
      if AllSpace(text.value) {
        forall i | 0 <= i < |text.value| ensures !IsCjk(text.value[i]) {
          assert IsSpace(text.value[i]);
        }
      }
    }
  }

  /** The CJK count of one character, and of a concatenation: it counts characters one
      by one, whatever their position. */
  lemma CjkCountOne(c: char)
    ensures CjkCount([c]) == if IsCjk(c) then 1 else 0
  {
    assert [c][1..] == [];
  }

  lemma {:induction false} CjkCountAppend(a: string, b: string)
    ensures CjkCount(a + b) == CjkCount(a) + CjkCount(b)
    decreases |a|
  {
    if a != [] {
      assert (a + b)[1..] == a[1..] + b;
      CjkCountAppend(a[1..], b);
    } else {
      assert a + b == b;
    }
  }

  /** The estimate of a single word: two per CJK character in it, plus one. */
  lemma EstimateWord(w: string)
    requires w != [] && NoSpace(w)
    ensures EstimateTokens(Some(w)) == 2 * CjkCount(w) + 1
  {
    WordsSingle(w);
  }

  /** The estimate is additive over texts joined by one whitespace character; with
      EstimateWord it fixes the estimate of every text. */
  lemma EstimateSpaceJoin(a: string, c: char, b: string)
    requires IsSpace(c)
    ensures EstimateTokens(Some(a + [c] + b)) == EstimateTokens(Some(a)) + EstimateTokens(Some(b))
  {
    WordsSpaceJoin(a, c, b);
    CjkCountAppend(a + [c], b);
    CjkCountAppend(a, [c]);
    CjkCountOne(c);
  }

  // ---------------------------------------------------------------------
  // History trim
  // ---------------------------------------------------------------------

  /** The summed estimate of a run of messages. */
  function TotalTokens(ms: seq<HistoryMessage>): nat
    decreases |ms|
  {
    if ms == [] then 0 else EstimateTokens(ms[0].content) + TotalTokens(ms[1..])
  }

  /** The last `n` messages. */
  function LastN(ms: seq<HistoryMessage>, n: nat): seq<HistoryMessage>
    requires n <= |ms|
  {
    ms[|ms| - n..]
  }

  /** The totals of suffixes grow with their length, so once one suffix overflows the
      budget every longer one does too: the suffix the trim returns is the longest that fits. */
  lemma {:induction false} LongerSuffixesOverflow(ms: seq<HistoryMessage>, k: nat, maxTokens: int)
    requires k <= |ms| && TotalTokens(LastN(ms, k)) > maxTokens
    ensures forall n :: k <= n <= |ms| ==> TotalTokens(LastN(ms, n)) > maxTokens
    decreases |ms| - k
  {
    if k < |ms| {
      assert LastN(ms, k + 1) == [ms[|ms| - k - 1]] + LastN(ms, k);
      assert LastN(ms, k + 1)[1..] == LastN(ms, k);
      LongerSuffixesOverflow(ms, k + 1, maxTokens);
    }
  }

  /** trim_conversation: walks the messages from the newest back and stops at the first
      one that would take the running total over the budget. */
  method TrimConversation(messages: seq<HistoryMessage>, maxTokens: int) returns (trimmed: seq<HistoryMessage>)
    ensures |trimmed| <= |messages| && trimmed == LastN(messages, |trimmed|)
    ensures trimmed != [] ==> TotalTokens(trimmed) <= maxTokens
    ensures maxTokens >= 0 ==> TotalTokens(trimmed) <= maxTokens
    ensures |trimmed| < |messages| ==> TotalTokens(LastN(messages, |trimmed| + 1)) > maxTokens
  {
    var total := 0;
    trimmed := [];
    var i := |messages|;
    while i > 0
      invariant 0 <= i <= |messages|
      invariant trimmed == messages[i..]
      invariant total == TotalTokens(trimmed)
      invariant trimmed != [] ==> total <= maxTokens
    {
      var tokens := EstimateTokens(messages[i - 1].content);
      assert messages[i - 1..] == [messages[i - 1]] + trimmed;
      assert messages[i - 1..][1..] == trimmed;
      if total + tokens > maxTokens {
        assert TotalTokens(LastN(messages, |trimmed| + 1)) > maxTokens;
        return;
      }
      trimmed := [messages[i - 1]] + trimmed;
      total := total + tokens;
      i := i - 1;
    }
  }

  // ---------------------------------------------------------------------
  // Chat blocks
  // ---------------------------------------------------------------------

  /** fmt_chat: one `<|im_start|>role\ncontent<|im_end|>\n` block. */
  function FmtChat(role: string, content: string): (r: string)
    ensures |r| == |IM_START| + |role| + |content| + |IM_END| + 2
  {
    IM_START + role + "\n" + content + IM_END + "\n"
  }

  /** The index of the first line break of `s`, or its length when there is none. */
  function FirstNewline(s: string): (n: nat)
    ensures n <= |s|
  {
    if s == [] || s[0] == '\n' then 0 else 1 + FirstNewline(s[1..])
  }

  lemma {:induction false} FirstNewlineAfter(role: string, rest: string)
    requires '\n' !in role
    ensures FirstNewline(role + "\n" + rest) == |role|
    decreases |role|
  {
    if role != [] {
      assert role[0] in role;
      assert (role + "\n" + rest)[1..] == role[1..] + "\n" + rest;
      assert forall c :: c in role[1..] ==> c in role;
      FirstNewlineAfter(role[1..], rest);
    }
  }

  /** A block determines its role and content when the role has no line break, so the
      history blocks of a prompt can be read back unambiguously. */
  lemma FmtChatInjective(r1: string, c1: string, r2: string, c2: string)
    requires '\n' !in r1 && '\n' !in r2
    requires FmtChat(r1, c1) == FmtChat(r2, c2)
    ensures r1 == r2 && c1 == c2
  {
    var s1 := FmtChat(r1, c1);
    var s2 := FmtChat(r2, c2);
    var p := |IM_START|;
    assert s1[p..] == r1 + "\n" + (c1 + IM_END + "\n");
    assert s2[p..] == r2 + "\n" + (c2 + IM_END + "\n");
    FirstNewlineAfter(r1, c1 + IM_END + "\n");
    FirstNewlineAfter(r2, c2 + IM_END + "\n");
    assert |r1| == |r2|;
    assert r1 == s1[p..p + |r1|];
    assert r2 == s2[p..p + |r2|];
    assert c1 == s1[p + |r1| + 1..p + |r1| + 1 + |c1|];
    assert c2 == s2[p + |r2| + 1..p + |r2| + 1 + |c2|];
  }

  // ---------------------------------------------------------------------
  // Prompt assembly
  // ---------------------------------------------------------------------

  /** `(msg.content or "").strip()`. */
  function CleanContent(text: Option<string>): string {
    if text.Some? then Strip(text.value) else ""
  }

  /** The history entries that appear in the prompt, in order, each with stripped content. */
  function Kept(ms: seq<HistoryMessage>): (ts: seq<ChatTurn>)
    decreases |ms|
  {
    if ms == [] then []
    else
      var last := ms[|ms| - 1];
      var c := CleanContent(last.content);
      Kept(ms[..|ms| - 1]) + (if c == "" then [] else [ChatTurn(last.role, c)])
  }

  /** Filtering distributes over concatenation: the kept entries of a history are those of
      its first part followed by those of its second, so the order of messages is kept. */
  lemma {:induction false} KeptAppend(a: seq<HistoryMessage>, b: seq<HistoryMessage>)
    ensures Kept(a + b) == Kept(a) + Kept(b)
    decreases |b|
  {
    if b == [] {
      assert a + b == a;
    } else {
      var init := b[..|b| - 1];
      KeptAppend(a, init);
      assert (a + b)[..|a + b| - 1] == a + init;
      assert (a + b)[|a + b| - 1] == b[|b| - 1];
    }
  }

  /** One message is kept exactly when its stripped content is non-empty, and then with
      its role and the stripped content. */
  lemma KeptSingle(m: HistoryMessage)
    ensures Kept([m]) == if CleanContent(m.content) == "" then [] else [ChatTurn(m.role, CleanContent(m.content))]
  {
    assert [m][..0] == [];
  }

  /** Every kept entry has non-empty content that is its own strip. */
  lemma {:induction false} KeptAreClean(ms: seq<HistoryMessage>)
    ensures forall i :: 0 <= i < |Kept(ms)| ==> Kept(ms)[i].content != "" && Strip(Kept(ms)[i].content) == Kept(ms)[i].content
    decreases |ms|
  {
    if ms != [] {
      var last := ms[|ms| - 1];
      KeptAreClean(ms[..|ms| - 1]);
      if last.content.Some? {
        StripIdempotent(last.content.value);
      }
    }
  }

  /** The blocks of the kept entries, one after another. */
  function Blocks(ts: seq<ChatTurn>): string
    decreases |ts|
  {
    if ts == [] then "" else Blocks(ts[..|ts| - 1]) + FmtChat(ts[|ts| - 1].role, ts[|ts| - 1].content)
  }

  /** The history section of a prompt. */
  function HistoryBlock(ms: seq<HistoryMessage>): string {
    Blocks(Kept(ms))
  }

  lemma HistoryBlockStep(ms: seq<HistoryMessage>, m: HistoryMessage)
    ensures HistoryBlock(ms + [m]) ==
      HistoryBlock(ms) + (if CleanContent(m.content) == "" then "" else FmtChat(m.role, CleanContent(m.content)))
  {
    assert (ms + [m])[..|ms + [m]| - 1] == ms;
    var c := CleanContent(m.content);
    if c != "" {
      assert (Kept(ms) + [ChatTurn(m.role, c)])[..|Kept(ms)|] == Kept(ms);
    } else {
      assert Kept(ms) + [] == Kept(ms);
    }
  }

  /** build_prompt: the system block, one block per non-blank history message in order,
      the stripped user block and the opened assistant turn. */
  method BuildPrompt(messages: seq<HistoryMessage>, systemPrompt: string, newUserPrompt: string) returns (prompt: string)
    ensures prompt == FmtChat("system", systemPrompt) + HistoryBlock(messages)
                      + FmtChat("user", Strip(newUserPrompt)) + ASSISTANT_OPEN
  {
    var system := FmtChat("system", systemPrompt);
    prompt := system;
    ghost var history := "";
    var i := 0;
    while i < |messages|
      invariant 0 <= i <= |messages|
      invariant history == HistoryBlock(messages[..i])
      invariant prompt == system + history
    {
      var msg := messages[i];
      var content := CleanContent(msg.content);
      HistoryBlockStep(messages[..i], msg);
      assert messages[..i + 1] == messages[..i] + [msg];
      if content != "" {
        var block := FmtChat(msg.role, content);
        AppendAssoc(system, history, block);
        prompt := prompt + block;
        history := history + block;
      } else {
        assert history + "" == history;
      }
      i := i + 1;
    }
    assert messages[..|messages|] == messages;
    prompt := prompt + FmtChat("user", Strip(newUserPrompt));
    prompt := prompt + ASSISTANT_OPEN;
  }
}
