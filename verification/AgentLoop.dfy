/**
 * agents/base.py: the tool-calling loop.  The provider and the tools are given as
 * functions of the transcript so far; a transcript never repeats within a run, so
 * every behaviour of a provider or a tool is such a function.
 */
module AgentLoop {
  import opened Text

  datatype ToolCall = ToolCall(id: string, name: string, arguments: string)

  datatype Response = Response(
    text: string,
    model: string,
    promptTokens: Option<int>,
    completionTokens: Option<int>,
    toolCalls: seq<ToolCall>)

  datatype Message =
    | User(content: string)
    | Assistant(content: string, calls: seq<ToolCall>)
    | Tool(callId: string, name: string, content: string)

  datatype ToolResult = Done(output: string) | Broken(error: string)

  datatype AgentOutput = AgentOutput(
    text: string, promptTokens: int, completionTokens: int, totalTokens: int, toolCalls: nat, model: string)

  /** None: the provider raised. */
  type Chat = seq<Message> -> Option<Response>

  type Tools = map<string, (seq<Message>, string) -> ToolResult>

  function BuildUserPrompt(description: string, context: string): string {
    "Task: " + description + "\n\nContext from previous steps:\n" +
    (if Strip(context) != "" then Strip(context) else "(no prior context)") +
    "\n\nUse tools if helpful, then produce your output for this task."
  }

  /** The prompt starts with the task and shows the context, or says that there is none. */
  lemma PromptShows(description: string, context: string)
    ensures "Task: " + description <= BuildUserPrompt(description, context)
    ensures !AllSpace(context) ==> Contains(BuildUserPrompt(description, context), Strip(context))
    ensures AllSpace(context) ==> Contains(BuildUserPrompt(description, context), "(no prior context)")
  {
    StripBlank(context);
    hide Strip, AllSpace;
    var block := if Strip(context) != "" then Strip(context) else "(no prior context)";
    var before := "Task: " + description + "\n\nContext from previous steps:\n";
    var after := "\n\nUse tools if helpful, then produce your output for this task.";
    assert BuildUserPrompt(description, context) == before + block + after;
    OccursWhole(block);
    ContainsShifted(before, block, after, block);
    assert before <= before + block + after;
    hide BuildUserPrompt;
  }

  function OrZero(tokens: Option<int>): int {
    if tokens.Some? then tokens.value else 0
  }

  function Max(a: int, b: int): int {
    if a < b then b else a
  }

  // ---- what the loop must produce ----

  function ContentFor(tools: Tools, messages: seq<Message>, call: ToolCall): string {
    if call.name !in tools then "ERROR: unknown tool '" + call.name + "'"
    else
      match tools[call.name](messages, call.arguments)
      case Done(output) => output
      case Broken(error) => "ERROR: " + error
  }

  /** A known tool's output is the reply as it is; a failure and an unknown tool are told apart. */
  lemma RepliesSay(tools: Tools, messages: seq<Message>, call: ToolCall)
    ensures call.name !in tools ==> ContentFor(tools, messages, call) == "ERROR: unknown tool '" + call.name + "'"
    ensures call.name in tools ==>
      match tools[call.name](messages, call.arguments)
      case Done(output) => ContentFor(tools, messages, call) == output
      case Broken(error) => ContentFor(tools, messages, call) == "ERROR: " + error
  {
  }

  /** The messages after answering the calls, in order. */
  function Answered(tools: Tools, messages: seq<Message>, calls: seq<ToolCall>): (r: seq<Message>)
    ensures messages <= r && |r| == |messages| + |calls|
  {
    if calls == [] then messages
    else
      var before := Answered(tools, messages, calls[..|calls| - 1]);
      var call := calls[|calls| - 1];
      before + [Tool(call.id, call.name, ContentFor(tools, before, call))]
  }

  /** The transcript after the given responses. */
  function Transcript(tools: Tools, prompt: string, responses: seq<Response>): (r: seq<Message>)
    ensures r != []
  {
    if responses == [] then [User(prompt)]
    else
      var last := responses[|responses| - 1];
      var before := Transcript(tools, prompt, responses[..|responses| - 1]);
      if last.toolCalls == [] then before
      else Answered(tools, before + [Assistant(last.text, last.toolCalls)], last.toolCalls)
  }

  function PromptTokens(responses: seq<Response>): int {
    if responses == [] then 0
    else PromptTokens(responses[..|responses| - 1]) + OrZero(responses[|responses| - 1].promptTokens)
  }

  function CompletionTokens(responses: seq<Response>): int {
    if responses == [] then 0
    else CompletionTokens(responses[..|responses| - 1]) + OrZero(responses[|responses| - 1].completionTokens)
  }

  /** The provider gave these responses to the transcripts that led to them, each but the last asking for tools. */
  ghost predicate Conversation(chat: Chat, tools: Tools, prompt: string, responses: seq<Response>) {
    && (forall k :: 0 <= k < |responses| ==>
          chat(Transcript(tools, prompt, responses[..k])) == Some(responses[k]))
    && (forall k :: 0 <= k < |responses| - 1 ==> responses[k].toolCalls != [])
  }

  /** A whole run: it ends with an answer, or when the iterations are used up. */
  ghost predicate Concluded(limit: nat, responses: seq<Response>) {
    1 <= |responses| <= limit && (|responses| < limit ==> responses[|responses| - 1].toolCalls == [])
  }

  // ---- the transcript, message by message ----

  function ToolMessages(messages: seq<Message>): nat {
    if messages == [] then 0
    else ToolMessages(messages[..|messages| - 1]) + if messages[|messages| - 1].Tool? then 1 else 0
  }

  /** One block: an assistant message, then exactly one reply per call, in order. */
  ghost predicate BlockAt(tools: Tools, messages: seq<Message>, at: nat, response: Response) {
    && at + 1 + |response.toolCalls| <= |messages|
    && messages[at] == Assistant(response.text, response.toolCalls)
    && forall j :: 0 <= j < |response.toolCalls| ==>
      RepliesTo(tools, messages, at + 1 + j, response.toolCalls[j])
  }

  ghost predicate RepliesTo(tools: Tools, messages: seq<Message>, at: nat, call: ToolCall)
    requires at < |messages|
  {
    messages[at] == Tool(call.id, call.name, ContentFor(tools, messages[..at], call))
  }

  /** Where the block of response k starts. */
  function BlockStart(responses: seq<Response>, k: nat): nat
    requires k <= |responses|
  {
    if k == 0 then 1
    else
      var calls := responses[k - 1].toolCalls;
      BlockStart(responses, k - 1) + if calls == [] then 0 else 1 + |calls|
  }

  lemma {:induction false} AnsweredReplies(tools: Tools, messages: seq<Message>, calls: seq<ToolCall>, j: nat)
    requires j < |calls|
    ensures RepliesTo(tools, Answered(tools, messages, calls), |messages| + j, calls[j])
  {
    hide ContentFor;
    var front := calls[..|calls| - 1];
    var before, after := Answered(tools, messages, front), Answered(tools, messages, calls);
    if j < |front| {
      AnsweredReplies(tools, messages, front, j);
      assert after[..|messages| + j] == before[..|messages| + j];
    } else {
      assert after[..|messages| + j] == before;
    }
  }

  lemma BlockStays(tools: Tools, messages: seq<Message>, longer: seq<Message>, at: nat, response: Response)
    requires messages <= longer && BlockAt(tools, messages, at, response)
    ensures BlockAt(tools, longer, at, response)
  {
    hide ContentFor;
    forall j | 0 <= j < |response.toolCalls|
      ensures RepliesTo(tools, longer, at + 1 + j, response.toolCalls[j])
    {
      assert RepliesTo(tools, messages, at + 1 + j, response.toolCalls[j]);
      assert longer[..at + 1 + j] == messages[..at + 1 + j];
    }
  }

  lemma {:induction false} BlockStartPrefix(responses: seq<Response>, n: nat, k: nat)
    requires k <= n <= |responses|
    ensures BlockStart(responses[..n], k) == BlockStart(responses, k)
  {
    if k > 0 {
      BlockStartPrefix(responses, n, k - 1);
    }
  }

  lemma TranscriptExtends(tools: Tools, prompt: string, responses: seq<Response>, response: Response)
    ensures var before := Transcript(tools, prompt, responses);
      Transcript(tools, prompt, responses + [response]) ==
        if response.toolCalls == [] then before
        else Answered(tools, before + [Assistant(response.text, response.toolCalls)], response.toolCalls)
  {
    assert (responses + [response])[..|responses|] == responses;
  }

  lemma {:induction false} TranscriptLength(tools: Tools, prompt: string, responses: seq<Response>)
    ensures Transcript(tools, prompt, responses)[0] == User(prompt)
    ensures |Transcript(tools, prompt, responses)| == BlockStart(responses, |responses|)
  {
    if responses != [] {
      var n := |responses| - 1;
      TranscriptLength(tools, prompt, responses[..n]);
      BlockStartPrefix(responses, n, n);
    }
  }

  lemma {:induction false} BlockOfResponse(tools: Tools, prompt: string, responses: seq<Response>, k: nat)
    requires k < |responses| && responses[k].toolCalls != []
    ensures BlockAt(tools, Transcript(tools, prompt, responses), BlockStart(responses, k), responses[k])
    decreases |responses|
  {
    var n := |responses| - 1;
    var front, last := responses[..n], responses[n];
    var before, after := Transcript(tools, prompt, front), Transcript(tools, prompt, responses);
    assert front + [last] == responses;
    TranscriptExtends(tools, prompt, front, last);
    BlockStartPrefix(responses, n, k);
    hide BlockAt, Transcript, BlockStart;
    assert before <= after;
    if k < n {
      assert front[k] == responses[k];
      BlockOfResponse(tools, prompt, front, k);
      BlockStays(tools, before, after, BlockStart(front, k), front[k]);
    } else {
      TranscriptLength(tools, prompt, front);
      LastBlock(tools, before, last);
    }
  }

  /**
   * The transcript is the prompt followed by one block per response that asked for
   * tools, back to back, and by nothing else.
   */
  lemma TranscriptWellFormed(tools: Tools, prompt: string, responses: seq<Response>)
    ensures var messages := Transcript(tools, prompt, responses);
      && messages[0] == User(prompt)
      && |messages| == BlockStart(responses, |responses|)
      && forall k :: 0 <= k < |responses| && responses[k].toolCalls != [] ==>
        BlockAt(tools, messages, BlockStart(responses, k), responses[k])
  {
    hide BlockAt, Transcript, BlockStart;
    TranscriptLength(tools, prompt, responses);
    forall k | 0 <= k < |responses| && responses[k].toolCalls != []
      ensures BlockAt(tools, Transcript(tools, prompt, responses), BlockStart(responses, k), responses[k])
    {
      BlockOfResponse(tools, prompt, responses, k);
    }
  }

  lemma LastBlock(tools: Tools, before: seq<Message>, response: Response)
    ensures var messages := before + [Assistant(response.text, response.toolCalls)];
      BlockAt(tools, Answered(tools, messages, response.toolCalls), |before|, response)
  {
    hide RepliesTo;
    var messages := before + [Assistant(response.text, response.toolCalls)];
    var after := Answered(tools, messages, response.toolCalls);
    assert after[|before|] == messages[|before|];
    forall j | 0 <= j < |response.toolCalls|
      ensures RepliesTo(tools, after, |before| + 1 + j, response.toolCalls[j])
    {
      AnsweredReplies(tools, messages, response.toolCalls, j);
    }
  }

  // ---- accounting ----

  function CallsRequested(responses: seq<Response>): nat {
    if responses == [] then 0
    else CallsRequested(responses[..|responses| - 1]) + |responses[|responses| - 1].toolCalls|
  }

  lemma {:induction false} AnsweredCounted(tools: Tools, messages: seq<Message>, calls: seq<ToolCall>)
    ensures ToolMessages(Answered(tools, messages, calls)) == ToolMessages(messages) + |calls|
  {
    hide ContentFor;
    if calls != [] {
      AnsweredCounted(tools, messages, calls[..|calls| - 1]);
      var after := Answered(tools, messages, calls);
      assert after[..|after| - 1] == Answered(tools, messages, calls[..|calls| - 1]);
    }
  }

  /** Every requested call has a reply in the transcript, and nothing else is a reply. */
  lemma {:induction false} CallsAreReplies(tools: Tools, prompt: string, responses: seq<Response>)
    ensures ToolMessages(Transcript(tools, prompt, responses)) == CallsRequested(responses)
  {
    hide Answered;
    if responses == [] {
      assert [User(prompt)][..0] == [];
    } else {
      var front, last := responses[..|responses| - 1], responses[|responses| - 1];
      CallsAreReplies(tools, prompt, front);
      if last.toolCalls != [] {
        var before := Transcript(tools, prompt, front);
        var asked := before + [Assistant(last.text, last.toolCalls)];
        assert asked[..|asked| - 1] == before;
        AnsweredCounted(tools, asked, last.toolCalls);
      }
    }
  }

  // ---- the loop ----

  lemma ConversationGrows(chat: Chat, tools: Tools, prompt: string, responses: seq<Response>, response: Response)
    requires Conversation(chat, tools, prompt, responses)
    requires forall k :: 0 <= k < |responses| ==> responses[k].toolCalls != []
    requires chat(Transcript(tools, prompt, responses)) == Some(response)
    ensures Conversation(chat, tools, prompt, responses + [response])
  {
    hide Transcript;
    var longer := responses + [response];
    forall k | 0 <= k < |longer| ensures chat(Transcript(tools, prompt, longer[..k])) == Some(longer[k]) {
      assert longer[..k] == responses[..k];
      assert responses[..|responses|] == responses;
    }
  }

  lemma NothingSaid(chat: Chat, tools: Tools, prompt: string)
    ensures Conversation(chat, tools, prompt, []) && Transcript(tools, prompt, []) == [User(prompt)]
    ensures PromptTokens([]) == 0 && CompletionTokens([]) == 0 && CallsRequested([]) == 0
  {
  }

  lemma Accounted(responses: seq<Response>, response: Response)
    ensures PromptTokens(responses + [response]) ==
      PromptTokens(responses) + (match response.promptTokens case Some(n) => n case None => 0)
    ensures CompletionTokens(responses + [response]) ==
      CompletionTokens(responses) + (match response.completionTokens case Some(n) => n case None => 0)
    ensures CallsRequested(responses + [response]) == CallsRequested(responses) + |response.toolCalls|
  {
    assert (responses + [response])[..|responses|] == responses;
  }

  class Agent {
    const chat: Chat
    const tools: Tools
    const maxIterations: int
    const model: string

    constructor (chat: Chat, tools: Tools, maxIterations: int, model: string)
      ensures this.chat == chat && this.tools == tools
      ensures this.maxIterations == maxIterations && this.model == model
    {
      this.chat := chat;
      this.tools := tools;
      this.maxIterations := maxIterations;
      this.model := model;
    }

    /** None when the provider raises.  `messages` and `responses` are the two sides of the conversation. */
    method Run(description: string, context: string)
      returns (output: Option<AgentOutput>, messages: seq<Message>, responses: seq<Response>)
      ensures var prompt := BuildUserPrompt(description, context);
        && Conversation(chat, tools, prompt, responses)
        && messages == Transcript(tools, prompt, responses)
        && |responses| <= Max(1, maxIterations)
        && (output.None? ==> chat(messages).None?)
      ensures output.Some? ==>
        && Concluded(Max(1, maxIterations), responses)
        && output.value == AgentOutput(
          if responses[|responses| - 1].text != "" then responses[|responses| - 1].text else "(no answer produced)",
          PromptTokens(responses),
          CompletionTokens(responses),
          PromptTokens(responses) + CompletionTokens(responses),
          ToolMessages(messages),
          if responses[|responses| - 1].model != "" then responses[|responses| - 1].model else model)
    {
      hide BuildUserPrompt, ContentFor, Conversation, Transcript, PromptTokens, CompletionTokens, CallsRequested;
      hide ToolMessages;
      var prompt := BuildUserPrompt(description, context);
      messages, responses := [User(prompt)], [];
      var promptTokens, completionTokens, toolCallsMade := 0, 0, 0;
      var response: Option<Response> := None;
      var n := 0;
      NothingSaid(chat, tools, prompt);
      while n < Max(1, maxIterations)
        invariant n == |responses| <= Max(1, maxIterations)
        invariant Conversation(chat, tools, prompt, responses)
        invariant messages == Transcript(tools, prompt, responses)
        invariant forall k :: 0 <= k < |responses| ==> responses[k].toolCalls != []
        invariant promptTokens == PromptTokens(responses) && completionTokens == CompletionTokens(responses)
        invariant toolCallsMade == CallsRequested(responses)
        invariant response == if responses == [] then None else Some(responses[|responses| - 1])
      {
        response := chat(messages);
        if response.None? {
          return None, messages, responses;
        }
        var r := response.value;
        ConversationGrows(chat, tools, prompt, responses, r);
        Accounted(responses, r);
        TranscriptExtends(tools, prompt, responses, r);
        promptTokens := promptTokens + OrZero(r.promptTokens);
        completionTokens := completionTokens + OrZero(r.completionTokens);
        responses := responses + [r];
        if r.toolCalls == [] {
          break;
        }
        messages := messages + [Assistant(r.text, r.toolCalls)];
        ghost var asked := messages;
        for j := 0 to |r.toolCalls|
          invariant messages == Answered(tools, asked, r.toolCalls[..j])
          invariant toolCallsMade == CallsRequested(responses) - |r.toolCalls| + j
        {
          var call := r.toolCalls[j];
          assert r.toolCalls[..j + 1][..j] == r.toolCalls[..j];
          var content := Reply(messages, call);
          toolCallsMade := toolCallsMade + 1;
          messages := messages + [Tool(call.id, call.name, content)];
        }
        assert r.toolCalls[..|r.toolCalls|] == r.toolCalls;
        n := n + 1;
      }
      CallsAreReplies(tools, prompt, responses);
      var last := response.value;
      output := Some(AgentOutput(
        if last.text != "" then last.text else "(no answer produced)",
        promptTokens,
        completionTokens,
        promptTokens + completionTokens,
        toolCallsMade,
        if last.model != "" then last.model else model));
    }

    /** An unknown or failing tool still yields a reply. */
    method Reply(messages: seq<Message>, call: ToolCall) returns (content: string)
      ensures content == ContentFor(tools, messages, call)
      ensures call.name !in tools ==> content == "ERROR: unknown tool '" + call.name + "'"
      ensures call.name in tools ==>
        match tools[call.name](messages, call.arguments)
        case Done(output) => content == output
        case Broken(error) => content == "ERROR: " + error
    {
      if call.name !in tools {
        return "ERROR: unknown tool '" + call.name + "'";
      }
      var result := tools[call.name](messages, call.arguments);
      content := if result.Done? then result.output else "ERROR: " + result.error;
    }
  }
}
