/** Request shaping and response checking of the Ollama client
    (go-brain/internal/llm/client.go). The HTTP exchange itself is an oracle,
    `Backend`: it receives the request the client would marshal and answers with
    what reading and decoding the HTTP response produced. */
module Llm {
  import opened Results

  const DefaultModel := "llama3"
  const SystemRole := "system"
  const NotComplete := "response not complete"

  /** The style directive added to every chat and generate request. */
  const Instruction := "Respond in a conversational, human voice, with a neutral tone. Use short sentences and simple words. Avoid academic language, transition phrases, and corporate jargon. Make it sound like someone talking to a friend in simple terms. Keep the key points but strip away any unnecessary words. Use Slack formatting: *bold* for emphasis, _italic_ for subtle emphasis, `code` for code, ```code block``` for multiple lines of code, and \U{2022} for bullet points. Do not use markdown formatting."

  const SummaryHeader := "Please provide a concise summary of the following conversation thread. Focus on the key points and main ideas. Keep it brief but informative. Use bullet points for clarity:\n\n"
  const SummaryTrailer := "\nSummary:"

  datatype User = User(slackName: string, slackId: string)

  /** `user` is absent exactly where the Go code leaves the pointer nil. */
  datatype Message = Message(role: string, content: string, user: Option<User>)

  /** The body the client posts: to the chat endpoint or to the generate endpoint. */
  datatype Request =
    | ChatRequest(model: string, messages: seq<Message>, stream: bool)
    | GenerateRequest(model: string, prompt: string, stream: bool)

  /** What came back from one HTTP exchange, after reading and decoding the body. */
  datatype Reply =
    | TransportFailed(cause: string)
    | ReadFailed(cause: string)
    | Undecodable(cause: string)
    | Decoded(content: string, done: bool)

  type Backend = Request -> Reply

  /** The client: the HTTP exchange it performs and the instruction text it
      appends. `NewClient` fixes the instruction to `Instruction`; the lemmas
      below hold whatever the text is. */
  datatype Client = Client(backend: Backend, instruction: string)

  function NewClient(backend: Backend): (c: Client)
    ensures c.backend == backend && c.instruction == Instruction
  {
    Client(backend, Instruction)
  }

  function SystemMessage(c: Client): Message {
    Message(SystemRole, c.instruction, None)
  }

  /** Every message names its author (the Go code dereferences `msg.User`). */
  predicate Authored(ms: seq<Message>) {
    forall i :: 0 <= i < |ms| ==> ms[i].user.Some?
  }

  /** The common tail of `Chat` and `Generate`: only a decoded, finished
      response yields text, and then its content verbatim. */
  function Interpret(reply: Reply): (r: Result<string>)
    ensures r.Ok? <==> reply.Decoded? && reply.done
    ensures r.Ok? ==> r.value == reply.content
    ensures reply.Decoded? && !reply.done ==> r == Err(NotComplete)
    ensures reply.Undecodable? ==> r == Err("failed to decode response: " + reply.cause)
  {
    match reply
    case TransportFailed(cause) => Err("failed to make request: " + cause)
    case ReadFailed(cause) => Err("failed to read response: " + cause)
    case Undecodable(cause) => Err("failed to decode response: " + cause)
    case Decoded(content, done) => if done then Ok(content) else Err(NotComplete)
  }

  /** The caller's messages, in order, followed by exactly one system message. */
  function ChatRequestOf(c: Client, messages: seq<Message>): (req: Request)
    ensures req.ChatRequest? && req.model == DefaultModel && !req.stream
    ensures |req.messages| == |messages| + 1
    ensures req.messages[..|messages|] == messages
    ensures req.messages[|messages|] == SystemMessage(c)
  {
    ChatRequest(DefaultModel, messages + [SystemMessage(c)], false)
  }

  function Chat(c: Client, messages: seq<Message>): (r: Result<string>)
    ensures r.Ok? ==> c.backend(ChatRequestOf(c, messages)) == Decoded(r.value, true)
    ensures c.backend(ChatRequestOf(c, messages)).Decoded? && c.backend(ChatRequestOf(c, messages)).done ==> r.Ok?
  {
    Interpret(c.backend(ChatRequestOf(c, messages)))
  }

  /** The caller's prompt, a newline, then the instruction text. */
  function GeneratePrompt(c: Client, prompt: string): (p: string)
    ensures |p| == |prompt| + 1 + |c.instruction|
    ensures p[..|prompt|] == prompt && p[|prompt|] == '\n'
    ensures p[|prompt| + 1..] == c.instruction
  {
    prompt + "\n" + c.instruction
  }

  /** Distinct prompts stay distinct once the instruction is appended. */
  lemma GeneratePromptInjective(c: Client, a: string, b: string)
    requires GeneratePrompt(c, a) == GeneratePrompt(c, b)
    ensures a == b
  {
    calc {
      a;
      GeneratePrompt(c, a)[..|a|];
      GeneratePrompt(c, b)[..|b|];
      b;
    }
  }

  function GenerateRequestOf(c: Client, prompt: string): (req: Request)
    ensures req.GenerateRequest? && req.model == DefaultModel && !req.stream
    ensures req.prompt == GeneratePrompt(c, prompt)
  {
    GenerateRequest(DefaultModel, GeneratePrompt(c, prompt), false)
  }

  function Generate(c: Client, prompt: string): (r: Result<string>)
    ensures r.Ok? ==> c.backend(GenerateRequestOf(c, prompt)) == Decoded(r.value, true)
    ensures c.backend(GenerateRequestOf(c, prompt)).Decoded? && c.backend(GenerateRequestOf(c, prompt)).done ==> r.Ok?
  {
    Interpret(c.backend(GenerateRequestOf(c, prompt)))
  }

  /** One line of the summarisation prompt. */
  function SummaryLine(m: Message): string
    requires m.user.Some?
  {
    m.user.value.slackName + ": " + m.content + "\n"
  }

  function SummaryLines(ms: seq<Message>): string
    requires Authored(ms)
  {
    if ms == [] then "" else SummaryLines(ms[..|ms| - 1]) + SummaryLine(ms[|ms| - 1])
  }

  /** The lines of a conversation split where the conversation is split. */
  lemma {:induction false} SummaryLinesConcat(a: seq<Message>, b: seq<Message>)
    requires Authored(a) && Authored(b) && Authored(a + b)
    ensures SummaryLines(a + b) == SummaryLines(a) + SummaryLines(b)
  {
    if b == [] {
      assert a + b == a;
    } else {
      var b', m := b[..|b| - 1], b[|b| - 1];
      assert Authored(b');
      assert (a + b)[..|a + b| - 1] == a + b';
      assert (a + b)[|a + b| - 1] == m;
      assert Authored(a + b');
      SummaryLinesConcat(a, b');
      calc {
        SummaryLines(a + b);
        SummaryLines(a + b') + SummaryLine(m);
        (SummaryLines(a) + SummaryLines(b')) + SummaryLine(m);
        SummaryLines(a) + (SummaryLines(b') + SummaryLine(m));
        SummaryLines(a) + SummaryLines(b);
      }
    }
  }

  function SummaryPrompt(ms: seq<Message>): string
    requires Authored(ms)
  {
    SummaryHeader + SummaryLines(ms) + SummaryTrailer
  }

  /** Builds the prompt line by line, as the Go code writes into its builder,
      and routes it through `Generate`. */
  method Summarize(c: Client, ms: seq<Message>) returns (r: Result<string>)
    requires Authored(ms)
    ensures r == Generate(c, SummaryPrompt(ms))
  {
    var prompt := SummaryHeader;
    var i := 0;
    while i < |ms|
      invariant 0 <= i <= |ms|
      invariant Authored(ms[..i])
      invariant prompt == SummaryHeader + SummaryLines(ms[..i])
    {
      assert ms[..i + 1][..i] == ms[..i];
      prompt := prompt + SummaryLine(ms[i]);
      i := i + 1;
    }
    assert ms[..i] == ms;
    prompt := prompt + SummaryTrailer;
    r := Generate(c, prompt);
  }

  /** The summary prompt starts with the header, ends with the trailer, and holds
      one line per message in order between them. */
  lemma SummaryPromptShape(ms: seq<Message>, m: Message)
    requires Authored(ms) && m.user.Some?
    ensures Authored(ms + [m])
    ensures SummaryPrompt(ms + [m]) == SummaryHeader + SummaryLines(ms) + SummaryLine(m) + SummaryTrailer
  {
    assert Authored(ms + [m]);
    SummaryLinesConcat(ms, [m]);
    assert [m][..0] == [];
  }
}
