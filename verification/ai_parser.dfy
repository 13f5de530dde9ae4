/** `ai_parser.py`: the in-process memory list, the chat session that
    assembles requests for the language-model provider and keeps the
    conversation history, and the one-shot parser prompts. The provider
    itself (the Groq client and its network call) is foreign code: it is a
    `Provider` parameter that either answers or raises. */
module AiParser {
  import opened Wrappers
  import opened Seqs
  import opened Text

  // ---------------------------------------------------------------- memory

  /** `SuperMemory`: the stored texts, oldest first. */
  datatype SuperMemory = SuperMemory(memories: seq<string>)

  /** `search` returns at most this many hits. */
  const SearchLimit: nat := 5

  function EmptyMemory(): (m: SuperMemory)
    ensures m.memories == []
  {
    SuperMemory([])
  }

  /** `add`: exactly one more entry, at the end. */
  function Add(m: SuperMemory, content: string): (r: SuperMemory)
    ensures |r.memories| == |m.memories| + 1
    ensures r.memories[..|m.memories|] == m.memories && r.memories[|m.memories|] == content
  {
    SuperMemory(m.memories + [content])
  }

  /** `clear`. */
  function Clear(m: SuperMemory): (r: SuperMemory)
    ensures r.memories == []
  {
    SuperMemory([])
  }

  /** `query.lower() in m.lower()`. */
  predicate Matches(query: string, m: string) {
    Contains(Lower(m), Lower(query))
  }

  /** Reference: every memory that matches the query, in insertion order. */
  function Hits(memories: seq<string>, query: string): (r: seq<string>)
    ensures |r| <= |memories|
    ensures forall i :: 0 <= i < |r| ==> Matches(query, r[i])
    ensures forall x :: x in r <==> x in memories && Matches(query, x)
  {
    if |memories| == 0 then []
    else
      var init := Hits(memories[..|memories| - 1], query);
      var last := memories[|memories| - 1];
      assert memories == memories[..|memories| - 1] + [last];
      if Matches(query, last) then init + [last] else init
  }

  lemma HitsStep(memories: seq<string>, i: int, query: string)
    requires 0 <= i < |memories|
    ensures Hits(memories[..i + 1], query)
      == Hits(memories[..i], query) + (if Matches(query, memories[i]) then [memories[i]] else [])
  {
    assert memories[..i + 1][..i] == memories[..i];
  }

  /** `search`: the loop over the memories, then the cut at 5. */
  method Search(m: SuperMemory, query: string) returns (results: seq<string>)
    ensures results == Take(Hits(m.memories, query), SearchLimit)
  {
    var found: seq<string> := [];
    var q := Lower(query);
    var i := 0;
    while i < |m.memories|
      invariant 0 <= i <= |m.memories|
      invariant found == Hits(m.memories[..i], query)
    {
      HitsStep(m.memories, i, query);
      if Contains(Lower(m.memories[i]), q) {
        found := found + [m.memories[i]];
      }
      i := i + 1;
    }
    assert m.memories[..i] == m.memories;
    results := Take(found, SearchLimit);
  }

  /** What a search returns: at most five memories, each containing the
      query case-insensitively, in insertion order; below the cap, every
      matching memory. */
  lemma SearchSpec(m: SuperMemory, query: string)
    ensures var r := Take(Hits(m.memories, query), SearchLimit);
      && |r| <= SearchLimit
      && (forall i :: 0 <= i < |r| ==> Matches(query, r[i]) && r[i] in m.memories)
      && IsPrefix(r, Hits(m.memories, query))
      && (|Hits(m.memories, query)| <= SearchLimit ==>
            forall x :: x in m.memories && Matches(query, x) ==> x in r)
  {
    var h := Hits(m.memories, query);
    var r := Take(h, SearchLimit);
    forall i | 0 <= i < |r| ensures Matches(query, r[i]) && r[i] in m.memories {
      assert r[i] == h[i];
      assert r[i] in h;
    }
  }

  /** Every text contains the empty string: an empty query returns the
      first five memories. */
  lemma {:induction false} EmptyQueryHitsAll(memories: seq<string>)
    ensures Hits(memories, "") == memories
  {
    if |memories| > 0 {
      var init := memories[..|memories| - 1];
      EmptyQueryHitsAll(init);
      assert OccursAt(Lower(memories[|memories| - 1]), Lower(""), 0);
      assert memories == init + [memories[|memories| - 1]];
    }
  }

  /** A memory added last is found last, and only when it matches. */
  lemma AddThenHits(m: SuperMemory, content: string, query: string)
    ensures Hits(Add(m, content).memories, query)
      == Hits(m.memories, query) + (if Matches(query, content) then [content] else [])
  {
    var ms := m.memories + [content];
    assert ms[..|ms| - 1] == m.memories;
  }

  // ------------------------------------------------------------------ chat

  datatype Role = System | User | Assistant

  /** One `{"role": ..., "content": ...}` entry. */
  datatype Message = Message(role: Role, content: string)

  /** The provider call: the reply, or the text of the raised exception. */
  type Provider = seq<Message> -> Result<string, string>

  /** `AIChat`; `available` is whether the provider has an API key. */
  datatype AIChat = AIChat(available: bool, memory: SuperMemory, content: string, history: seq<Message>)

  /** `AIChat.__init__`. */
  function NewChat(available: bool, content: string): (c: AIChat)
    ensures c.available == available && c.content == content && c.history == []
    ensures content != "" ==> c.memory.memories == [content]
    ensures content == "" ==> c.memory.memories == []
  {
    var m := EmptyMemory();
    AIChat(available, if content != "" then Add(m, content) else m, content, [])
  }

  /** `set_context`: replaces the content and remembers it. */
  function SetContext(c: AIChat, content: string): (r: AIChat)
    ensures r.content == content && r.history == c.history && r.available == c.available
    ensures r.memory.memories == c.memory.memories + [content]
  {
    c.(content := content, memory := Add(c.memory, content))
  }

  /** The system prompt embeds at most this many characters of content. */
  const ContextLimit: nat := 30000

  /** Only the last this many history entries go into a request. */
  const HistoryWindow: nat := 10

  const PromptHead: string :=
    "You are a helpful assistant with access to scraped website data.\n"
    + "Answer questions based on this data. Be accurate and helpful.\n\n"
    + "SCRAPED DATA:\n"

  const PromptTail: string :=
    "\n\nInstructions:\n"
    + "- Answer based on the data above\n"
    + "- If not found, say so\n"
    + "- Be conversational and helpful"

  function SystemPrompt(content: string): string {
    PromptHead + Take(content, ContextLimit) + PromptTail
  }

  /** The data section of a system prompt is the first 30000 characters of
      the content, so two contents that agree there give the same prompt. */
  lemma SystemPromptData(content: string)
    ensures var p := SystemPrompt(content);
      && |p| == |PromptHead| + Min(ContextLimit, |content|) + |PromptTail|
      && p[|PromptHead|..|p| - |PromptTail|] == content[..Min(ContextLimit, |content|)]
  {
    var d := Take(content, ContextLimit);
    assert (PromptHead + d + PromptTail)[|PromptHead|..|PromptHead| + |d|] == d;
  }

  /** The messages `chat` sends: the system prompt, the last (at most) ten
      history entries in order, then the user's message. */
  function Request(c: AIChat, message: string): (r: seq<Message>)
    ensures 2 <= |r| <= HistoryWindow + 2
    ensures r[0] == Message(System, SystemPrompt(c.content))
    ensures r[|r| - 1] == Message(User, message)
    ensures r[1..|r| - 1] == LastN(c.history, HistoryWindow)
  {
    var recent := LastN(c.history, HistoryWindow);
    var r := [Message(System, SystemPrompt(c.content))] + recent + [Message(User, message)];
    assert r[1..|r| - 1] == recent;
    r
  }

  const MissingKey: string := "Error: Add GROQ_API_KEY to .env file"

  /** The session after a `chat` call, and the string the call returns. */
  datatype ChatResult = ChatResult(chat: AIChat, reply: string)

  /** `chat`: without a key, a fixed error and no provider call; otherwise
      the reply is returned and both turns are recorded, or the provider's
      exception becomes the reply and the history is kept as it was. */
  function Chat(c: AIChat, message: string, provider: Provider): (r: ChatResult)
    ensures r.chat.content == c.content && r.chat.memory == c.memory && r.chat.available == c.available
    ensures !c.available ==> r == ChatResult(c, MissingKey)
    ensures c.available && provider(Request(c, message)).Failure? ==>
      r == ChatResult(c, "Error: " + provider(Request(c, message)).error)
    ensures c.available && provider(Request(c, message)).Success? ==>
      var reply := provider(Request(c, message)).value;
      && r.reply == reply
      && r.chat.history == c.history + [Message(User, message), Message(Assistant, reply)]
  {
    if !c.available then ChatResult(c, MissingKey)
    else
      match provider(Request(c, message))
      case Success(reply) =>
        ChatResult(c.(history := c.history + [Message(User, message), Message(Assistant, reply)]), reply)
      case Failure(e) => ChatResult(c, "Error: " + e)
  }

  /** `AIChat.clear`: the history only. */
  function ClearChat(c: AIChat): (r: AIChat)
    ensures r.history == [] && r.content == c.content && r.memory == c.memory && r.available == c.available
  {
    c.(history := [])
  }

  /** The history is a list of user/assistant exchanges. */
  predicate Alternating(h: seq<Message>) {
    && |h| % 2 == 0
    && forall i :: 0 <= i < |h| ==> h[i].role == (if i % 2 == 0 then User else Assistant)
  }

  /** Every session operation keeps the history a list of exchanges. */
  lemma ChatKeepsAlternating(c: AIChat, message: string, provider: Provider)
    requires Alternating(c.history)
    ensures Alternating(Chat(c, message, provider).chat.history)
    ensures Alternating(ClearChat(c).history)
    ensures Alternating(SetContext(c, message).history)
  {
    var h := Chat(c, message, provider).chat.history;
    if h != c.history {
      forall i | 0 <= i < |h| ensures h[i].role == (if i % 2 == 0 then User else Assistant) {
        if i >= |c.history| {
          assert i == |c.history| || i == |c.history| + 1;
        }
      }
    }
  }

  /** Because the window is even, a request built from a list of exchanges
      starts its history part with a user turn and ends it with an
      assistant turn. */
  lemma WindowStartsWithUser(c: AIChat, message: string)
    requires Alternating(c.history)
    ensures var r := Request(c, message);
      Alternating(r[1..|r| - 1])
  {
    WindowAlternating(c.history);
  }

  /** The last ten entries of a list of exchanges are whole exchanges. */
  lemma WindowAlternating(h: seq<Message>)
    requires Alternating(h)
    ensures Alternating(LastN(h, HistoryWindow))
  {
    var w := LastN(h, HistoryWindow);
    var off := |h| - |w|;
    assert off % 2 == 0;
    forall i | 0 <= i < |w| ensures w[i].role == (if i % 2 == 0 then User else Assistant) {
      assert w[i] == h[off + i];
      EvenShift(off, i);
    }
  }

  lemma EvenShift(off: nat, i: nat)
    requires off % 2 == 0
    ensures (off + i) % 2 == i % 2
  {
  }

  /** The history grows by exactly one exchange per answered message. */
  lemma ChatHistoryLength(c: AIChat, message: string, provider: Provider)
    ensures var r := Chat(c, message, provider);
      |r.chat.history| == |c.history| + (if r.chat.history == c.history then 0 else 2)
      && (r.chat.history != c.history <==> c.available && provider(Request(c, message)).Success?)
  {
    var r := Chat(c, message, provider);
    if c.available && provider(Request(c, message)).Success? {
      assert |r.chat.history| == |c.history| + 2;
    }
  }

  // ---------------------------------------------------------------- parser

  /** `AIParser` prompts embed at most this many characters of content. */
  const ParseLimit: nat := 25000

  /** The three `AIParser` requests. */
  datatype ParseTask = Extract(request: string) | Summarize | AnalyzeBrand

  function TaskHead(task: ParseTask): string {
    match task
    case Extract(request) => "Extract from this content:\n\nREQUEST: " + request + "\n\nCONTENT:\n"
    case Summarize => "Summarize this content:\n\n"
    case AnalyzeBrand => "Analyze this brand:\n\n"
  }

  function TaskTail(task: ParseTask): string {
    match task
    case AnalyzeBrand => "\n\nInclude: Overview, Products, Audience, Values, Contact"
    case _ => ""
  }

  function Prompt(task: ParseTask, content: string): string {
    TaskHead(task) + Take(content, ParseLimit) + TaskTail(task)
  }

  /** `extract`, `summarize`, `analyze_brand`: one user message; a provider
      exception propagates to the caller. */
  function Ask(task: ParseTask, content: string, provider: Provider): Result<string, string> {
    provider([Message(User, Prompt(task, content))])
  }

  /** A parser prompt sees the first 25000 characters of the content and
      nothing after them. */
  lemma PromptSeesPrefix(task: ParseTask, content: string)
    ensures Prompt(task, content) == Prompt(task, content[..Min(ParseLimit, |content|)])
    ensures var p := Prompt(task, content);
      && |p| == |TaskHead(task)| + Min(ParseLimit, |content|) + |TaskTail(task)|
      && p[|TaskHead(task)|..|p| - |TaskTail(task)|] == content[..Min(ParseLimit, |content|)]
  {
    var d := Take(content, ParseLimit);
    assert Take(d, ParseLimit) == d;
    assert (TaskHead(task) + d + TaskTail(task))[|TaskHead(task)|..|TaskHead(task)| + |d|] == d;
  }
}
