/** The conversation log kept by the chat service, and the two views that
    are built from it: the prompt sent to the language model and the
    human-readable summary. The log's in-place updates live in the
    `GroqService` class; this module holds the values they are specified by. */
module Conversation {
  import opened Text

  /** At most this many messages are kept. */
  const MaxHistory: nat := 10
  /** The prompt looks at this many of the most recent messages. */
  const PromptWindow: nat := 6
  /** The summary lists this many of the most recent messages. */
  const SummaryWindow: nat := 3
  /** Summary lines cut message content to this many characters. */
  const SummaryContentLimit: nat := 100

  const SystemRole: string := "system"
  const UserRole: string := "user"
  const AssistantRole: string := "assistant"

  /** One history entry. The role is free text: the service itself only
      ever writes "user" and "assistant". The timestamp is not modelled. */
  datatype Message = Message(role: string, content: string)

  /** Python's `xs[-n:]` for n > 0: the last `n` elements, or all of them. */
  function LastN<T>(xs: seq<T>, n: nat): (r: seq<T>)
    ensures |r| == if |xs| < n then |xs| else n
    ensures r == xs[|xs| - |r|..]
  {
    if |xs| <= n then xs else xs[|xs| - n..]
  }

  // ---------------------------------------------------------------------
  // The capped log

  /** The log after one append: the new message goes last, and when the
      log would exceed `MaxHistory` the oldest entries are dropped. */
  function Added(history: seq<Message>, m: Message): (h: seq<Message>)
    ensures |h| == if |history| < MaxHistory then |history| + 1 else MaxHistory
    ensures h[|h| - 1] == m
  {
    LastN(history + [m], MaxHistory)
  }

  /** Everything but the new message is the newest part of the old log. */
  lemma AddedKeepsNewestOld(history: seq<Message>, m: Message)
    ensures var h := Added(history, m); h[..|h| - 1] == LastN(history, MaxHistory - 1)
  {
    var h := Added(history, m);
    assert h[..|h| - 1] == LastN(history, MaxHistory - 1);
  }

  /** The log after appending several messages one at a time. */
  function AddedAll(history: seq<Message>, ms: seq<Message>): seq<Message>
    decreases |ms|
  {
    if ms == [] then history else AddedAll(Added(history, ms[0]), ms[1..])
  }

  /** Dropping a prefix that leaves at least `n` elements does not change
      the last `n`. */
  lemma LastNOfSuffix<T>(xs: seq<T>, k: nat, n: nat)
    requires k <= |xs|
    requires k == 0 || |xs| - k >= n
    ensures LastN(xs[k..], n) == LastN(xs, n)
  {
    if k > 0 {
      assert xs[k..][|xs| - k - n..] == xs[|xs| - n..];
    }
  }

  /** Appending one at a time keeps exactly the last `MaxHistory` entries of
      the whole sequence: the oldest entries are the ones evicted, in order. */
  lemma {:induction false} AddedAllKeepsNewest(history: seq<Message>, ms: seq<Message>)
    requires |history| <= MaxHistory
    ensures AddedAll(history, ms) == LastN(history + ms, MaxHistory)
    decreases |ms|
  {
    if ms == [] {
      assert history + ms == history;
    } else {
      AddedAllKeepsNewest(Added(history, ms[0]), ms[1..]);
      AddedThenLastN(history, ms[0], ms[1..]);
      assert [ms[0]] + ms[1..] == ms;
    }
  }

  /** The newest entries after one append and some later messages are the
      newest entries of the old log followed by all the messages. */
  lemma AddedThenLastN(history: seq<Message>, m: Message, rest: seq<Message>)
    ensures LastN(Added(history, m) + rest, MaxHistory) == LastN(history + ([m] + rest), MaxHistory)
  {
    var first := history + [m];
    var h1 := Added(history, m);
    var k := |first| - |h1|;
    assert h1 + rest == (first + rest)[k..];
    assert history + ([m] + rest) == first + rest;
    LastNOfSuffix(first + rest, k, MaxHistory);
  }

  /** `AddedAll` appends its first message first. */
  lemma AddedAllFirst(history: seq<Message>, m: Message, rest: seq<Message>)
    ensures AddedAll(history, [m] + rest) == AddedAll(Added(history, m), rest)
  {
    assert ([m] + rest)[1..] == rest;
  }

  /** Logging two messages keeps the newest `MaxHistory` of the log
      extended by both. */
  lemma AddedTwice(history: seq<Message>, u: Message, r: Message)
    requires |history| <= MaxHistory
    ensures Added(Added(history, u), r) == LastN(history + [u, r], MaxHistory)
  {
    var h1 := Added(history, u);
    AddedAllFirst(h1, r, []);
    AddedAllFirst(history, u, [r]);
    assert [r] + [] == [r];
    assert [u] + [r] == [u, r];
    AddedAllKeepsNewest(history, [u, r]);
  }

  /** Four appends in a row keep the newest `MaxHistory` of the log and
      the four entries. */
  lemma FourAppends(history: seq<Message>, m1: Message, m2: Message, m3: Message, m4: Message)
    requires |history| <= MaxHistory
    ensures Added(Added(Added(Added(history, m1), m2), m3), m4) == LastN(history + [m1, m2, m3, m4], MaxHistory)
  {
    var h1 := Added(history, m1);
    var h2 := Added(h1, m2);
    var h3 := Added(h2, m3);
    AddedAllFirst(h3, m4, []);
    AddedAllFirst(h2, m3, [m4]);
    AddedAllFirst(h1, m2, [m3, m4]);
    AddedAllFirst(history, m1, [m2, m3, m4]);
    assert [m4] + [] == [m4];
    assert [m3] + [m4] == [m3, m4];
    assert [m2] + [m3, m4] == [m2, m3, m4];
    assert [m1] + [m2, m3, m4] == [m1, m2, m3, m4];
    AddedAllKeepsNewest(history, [m1, m2, m3, m4]);
  }

  // ---------------------------------------------------------------------
  // The prompt

  predicate IsChatRole(role: string) {
    role == UserRole || role == AssistantRole
  }

  /** The entries whose role is "user" or "assistant", in their original order. */
  function ChatEntries(ms: seq<Message>): (r: seq<Message>)
    ensures |r| <= |ms|
  {
    if ms == [] then []
    else
      var last := ms[|ms| - 1];
      ChatEntries(ms[..|ms| - 1]) + (if IsChatRole(last.role) then [last] else [])
  }

  /** Exactly the user and assistant entries are kept. */
  lemma {:induction false} ChatEntriesSpec(ms: seq<Message>)
    ensures forall i :: 0 <= i < |ChatEntries(ms)| ==> IsChatRole(ChatEntries(ms)[i].role) && ChatEntries(ms)[i] in ms
    ensures forall m :: m in ms && IsChatRole(m.role) ==> m in ChatEntries(ms)
  {
    if ms != [] {
      var init, last := ms[..|ms| - 1], ms[|ms| - 1];
      ChatEntriesSpec(init);
      assert ms == init + [last];
    }
  }

  /** One more log entry adds itself to the chat entries exactly when its
      role is "user" or "assistant". */
  lemma ChatEntriesAppend(ms: seq<Message>, m: Message)
    ensures ChatEntries(ms + [m]) == ChatEntries(ms) + (if IsChatRole(m.role) then [m] else [])
  {
    assert (ms + [m])[..|ms|] == ms;
  }

  /** The messages sent to the model: the system prompt, the user and
      assistant entries among the last `PromptWindow` history entries,
      then the current message as a user entry. */
  function Prompt(systemPrompt: string, history: seq<Message>, userMessage: string): seq<Message> {
    [Message(SystemRole, systemPrompt)] + ChatEntries(LastN(history, PromptWindow)) + [Message(UserRole, userMessage)]
  }

  /** The prompt starts with the one system entry, ends with the current
      message, carries only user and assistant entries in between, and so
      holds at most `PromptWindow + 2` entries. */
  lemma PromptShape(systemPrompt: string, history: seq<Message>, userMessage: string)
    ensures var p := Prompt(systemPrompt, history, userMessage);
      && 2 <= |p| <= PromptWindow + 2
      && p[0] == Message(SystemRole, systemPrompt)
      && p[|p| - 1] == Message(UserRole, userMessage)
      && (forall i :: 0 < i < |p| ==> IsChatRole(p[i].role))
      && p[1..|p| - 1] == ChatEntries(LastN(history, PromptWindow))
  {
    ChatEntriesSpec(LastN(history, PromptWindow));
  }

  // ---------------------------------------------------------------------
  // The summary

  const NoHistorySummary: string := "No conversation history."
  const Ellipsis: string := "..."

  /** Content as shown in a summary line: unchanged up to the limit,
      otherwise its first `SummaryContentLimit` characters and an ellipsis. */
  function Truncated(content: string): (r: string)
    ensures |r| <= SummaryContentLimit + |Ellipsis|
    ensures |content| <= SummaryContentLimit ==> r == content
    ensures |content| > SummaryContentLimit ==> IsPrefix(content[..SummaryContentLimit], r) && r[SummaryContentLimit..] == Ellipsis
  {
    if |content| > SummaryContentLimit then content[..SummaryContentLimit] + Ellipsis else content
  }

  function SummaryLine(m: Message): string {
    "- " + Title(m.role) + ": " + Truncated(m.content) + "\n"
  }

  function SummaryLines(ms: seq<Message>): string {
    if ms == [] then "" else SummaryLines(ms[..|ms| - 1]) + SummaryLine(ms[|ms| - 1])
  }

  lemma SummaryLinesAppend(ms: seq<Message>, m: Message)
    ensures SummaryLines(ms + [m]) == SummaryLines(ms) + SummaryLine(m)
  {
    assert (ms + [m])[..|ms|] == ms;
  }

  function SummaryHeader(count: nat): string {
    "Conversation with " + NatToString(count) + " messages:\n"
  }

  /** The summary of a log: a fixed text for an empty log, otherwise a
      header with the full message count and one line per message among the
      last `SummaryWindow`. */
  function Summary(history: seq<Message>): string {
    if history == [] then NoHistorySummary
    else SummaryHeader(|history|) + SummaryLines(LastN(history, SummaryWindow))
  }

  /** The fixed text is returned exactly when there is no history. */
  lemma SummaryEmptyIff(history: seq<Message>)
    ensures Summary(history) == NoHistorySummary <==> history == []
  {
    if history != [] {
      assert Summary(history)[0] == 'C';
    }
  }

  /** A log of three or more messages is summarised by its header and the
      lines of exactly its last three messages, oldest first. */
  lemma SummaryOfLongHistory(history: seq<Message>)
    requires |history| >= SummaryWindow
    ensures var n := |history|;
      Summary(history) == SummaryHeader(n) + SummaryLine(history[n - 3]) + SummaryLine(history[n - 2]) + SummaryLine(history[n - 1])
  {
    var n := |history|;
    var a, b, c := history[n - 3], history[n - 2], history[n - 1];
    LastThree(history);
    SummaryLinesOfThree(a, b, c);
    assert Summary(history) == SummaryHeader(n) + SummaryLines([a, b, c]);
    ConcatFour(SummaryHeader(n), SummaryLine(a), SummaryLine(b), SummaryLine(c));
  }

  lemma ConcatFour(h: string, x: string, y: string, z: string)
    ensures h + (x + y + z) == h + x + y + z
  {
  }

  lemma LastThree(history: seq<Message>)
    requires |history| >= SummaryWindow
    ensures var n := |history|; LastN(history, SummaryWindow) == [history[n - 3], history[n - 2], history[n - 1]]
  {
    assert LastN(history, SummaryWindow) == history[|history| - 3..];
  }

  lemma SummaryLinesOfThree(a: Message, b: Message, c: Message)
    ensures SummaryLines([a, b, c]) == SummaryLine(a) + SummaryLine(b) + SummaryLine(c)
  {
    assert [a][..0] == [];
    assert SummaryLines([a]) == "" + SummaryLine(a) == SummaryLine(a);
    assert [a, b][..1] == [a];
    assert SummaryLines([a, b]) == SummaryLine(a) + SummaryLine(b);
    assert [a, b, c][..2] == [a, b];
  }
}
