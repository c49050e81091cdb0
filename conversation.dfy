/** Context building and response composition of the conversation manager
    (go-brain/internal/slack/conversation_manager.go). Slack's Web API is an
    oracle, `SlackApi`, whose answers are given; the LLM client is the one of
    module `Llm` over an HTTP oracle. */
module Conversation {
  import opened Results
  import Llm

  const UserRole := "user"
  const AssistantRole := "assistant"
  const BotMessageSubtype := "bot_message"
  const ChatMode := "chat"
  const HistoryError := "failed to get conversation history: "
  const RepliesError := "failed to get thread messages: "

  /** The fields of a Slack history or reply message that the manager reads. */
  datatype SlackMsg = SlackMsg(text: string, user: string, username: string, botId: string,
                               subType: string, threadTs: string)

  datatype SlackUser = SlackUser(id: string, name: string)

  datatype ItemRef = ItemRef(channel: string, timestamp: string)

  /** The `slack.MsgOption`s that `PostResponse` passes to `PostMessage`. */
  datatype MsgOption =
    | OptText(text: string, escape: bool)
    | OptEnableLinkUnfurl
    | OptAsUser(asUser: bool)
    | OptThreadTs(ts: string)

  datatype Post = Post(channel: string, options: seq<MsgOption>)

  /** The text, author and channel handed to the vector store. */
  datatype VectorRecord = VectorRecord(text: string, userId: string, channelId: string)

  /** Answers of the Slack Web API, one per call and its arguments. An `Option`
      result is the error of a call whose only outcome is success or an error. */
  datatype SlackApi = SlackApi(
    conversationReplies: (string, string) -> Result<seq<SlackMsg>>,  // channel, thread timestamp
    recentHistory: string -> Result<seq<SlackMsg>>,                 // last hour, newest first, at most 100
    history: string -> Result<seq<SlackMsg>>,                       // at most 100
    postMessage: Post -> Option<string>,
    userInfo: string -> Result<SlackUser>,
    removeReaction: (string, ItemRef) -> Option<string>)

  // ---------------------------------------------------------------------------
  // Log truncation (TruncatingFormatter.Format)

  newtype byte = x: int | 0 <= x < 256

  const MaxLogBytes := 50
  const Ellipsis: seq<byte> := [46, 46, 46]

  /** Go measures and slices the log message in bytes. */
  function TruncateForLog(msg: seq<byte>): (r: seq<byte>)
    ensures |msg| <= MaxLogBytes ==> r == msg
    ensures |msg| > MaxLogBytes ==> |r| == MaxLogBytes + 3 && r[..MaxLogBytes] == msg[..MaxLogBytes] && r[MaxLogBytes..] == Ellipsis
  {
    if |msg| > MaxLogBytes then msg[..MaxLogBytes] + Ellipsis else msg
  }

  lemma TruncateIdempotent(msg: seq<byte>)
    ensures TruncateForLog(TruncateForLog(msg)) == TruncateForLog(msg)
  {
    if |msg| > MaxLogBytes {
      var once := TruncateForLog(msg);
      assert once[..MaxLogBytes] + Ellipsis == once;
    }
  }

  // ---------------------------------------------------------------------------
  // Role inference and context windows

  predicate IsBotMessage(m: SlackMsg) {
    m.botId != "" || m.subType == BotMessageSubtype
  }

  function RoleOf(m: SlackMsg): (role: string)
    ensures role == AssistantRole <==> IsBotMessage(m)
    ensures role == UserRole <==> !IsBotMessage(m)
  {
    if IsBotMessage(m) then AssistantRole else UserRole
  }

  /** The conversion both context paths apply to each Slack message. */
  function ToMessage(m: SlackMsg): Llm.Message {
    Llm.Message(RoleOf(m), m.text, Some(Llm.User(m.username, m.user)))
  }

  /** Thread replies, converted one to one and in the platform's order. */
  function ThreadMessages(replies: seq<SlackMsg>): (r: seq<Llm.Message>)
    ensures |r| == |replies|
    ensures forall k :: 0 <= k < |r| ==> r[k] == ToMessage(replies[k])
    ensures Llm.Authored(r)
  {
    if replies == [] then []
    else ThreadMessages(replies[..|replies| - 1]) + [ToMessage(replies[|replies| - 1])]
  }

  /** Channel history without the messages that belong to a thread, converted,
      still newest first. */
  function Unthreaded(history: seq<SlackMsg>): (r: seq<Llm.Message>)
    ensures |r| <= |history|
    ensures Llm.Authored(r)
  {
    if history == [] then []
    else
      var last := history[|history| - 1];
      Unthreaded(history[..|history| - 1]) + (if last.threadTs == "" then [ToMessage(last)] else [])
  }

  /** Every kept message comes from an unthreaded message of the history. */
  lemma {:induction false} UnthreadedSound(history: seq<SlackMsg>, k: nat)
    requires k < |Unthreaded(history)|
    ensures exists j :: 0 <= j < |history| && history[j].threadTs == "" && Unthreaded(history)[k] == ToMessage(history[j])
  {
    var init := history[..|history| - 1];
    if k < |Unthreaded(init)| {
      UnthreadedSound(init, k);
      var j :| 0 <= j < |init| && init[j].threadTs == "" && Unthreaded(init)[k] == ToMessage(init[j]);
      assert history[j] == init[j];
    } else {
      assert history[|history| - 1].threadTs == "";
    }
  }

  /** Every unthreaded message of the history is kept. */
  lemma {:induction false} UnthreadedComplete(history: seq<SlackMsg>, j: nat)
    requires j < |history| && history[j].threadTs == ""
    ensures exists k :: 0 <= k < |Unthreaded(history)| && Unthreaded(history)[k] == ToMessage(history[j])
  {
    var init := history[..|history| - 1];
    if j < |init| {
      UnthreadedComplete(init, j);
      var k :| 0 <= k < |Unthreaded(init)| && Unthreaded(init)[k] == ToMessage(init[j]);
      assert Unthreaded(history)[k] == Unthreaded(init)[k];
    } else {
      assert Unthreaded(history)[|Unthreaded(history)| - 1] == ToMessage(history[j]);
    }
  }

  /** When no message belongs to a thread, nothing is dropped. */
  lemma {:induction false} UnthreadedKeepsAll(history: seq<SlackMsg>)
    requires forall j :: 0 <= j < |history| ==> history[j].threadTs == ""
    ensures Unthreaded(history) == ThreadMessages(history)
  {
    if history != [] {
      UnthreadedKeepsAll(history[..|history| - 1]);
    }
  }

  function Reversed<T>(s: seq<T>): (r: seq<T>)
    ensures |r| == |s|
    ensures forall k :: 0 <= k < |s| ==> r[k] == s[|s| - 1 - k]
  {
    if s == [] then [] else [s[|s| - 1]] + Reversed(s[..|s| - 1])
  }

  /** The channel-fallback window: unthreaded messages, oldest first. */
  function ChannelWindow(history: seq<SlackMsg>): (r: seq<Llm.Message>)
    ensures |r| <= |history|
    ensures Llm.Authored(r)
  {
    Reversed(Unthreaded(history))
  }

  /** `m` is the conversion of some unthreaded message of `history`. */
  ghost predicate FromUnthreaded(history: seq<SlackMsg>, m: Llm.Message) {
    exists j :: 0 <= j < |history| && history[j].threadTs == "" && m == ToMessage(history[j])
  }

  /** Each message of the channel window is an unthreaded message of the
      history, and each unthreaded message of the history is in the window. */
  lemma {:induction false} ChannelWindowFromHistory(history: seq<SlackMsg>)
    ensures forall k :: 0 <= k < |ChannelWindow(history)| ==> FromUnthreaded(history, ChannelWindow(history)[k])
    ensures forall j :: 0 <= j < |history| && history[j].threadTs == "" ==> ToMessage(history[j]) in ChannelWindow(history)
  {
    var u := Unthreaded(history);
    var w := ChannelWindow(history);
    forall k | 0 <= k < |w|
      ensures FromUnthreaded(history, w[k])
    {
      UnthreadedSound(history, |u| - 1 - k);
      assert w[k] == u[|u| - 1 - k];
    }
    forall j | 0 <= j < |history| && history[j].threadTs == ""
      ensures ToMessage(history[j]) in w
    {
      UnthreadedComplete(history, j);
      var k :| 0 <= k < |u| && u[k] == ToMessage(history[j]);
      assert w[|u| - 1 - k] == u[k];
    }
  }

  function LastHourContext(api: SlackApi, channel: string): (r: Result<seq<Llm.Message>>)
    ensures r.Ok? <==> api.recentHistory(channel).Ok?
    ensures r.Ok? ==> r.value == ChannelWindow(api.recentHistory(channel).value)
    ensures r.Err? ==> r.error == HistoryError + api.recentHistory(channel).error
  {
    match api.recentHistory(channel)
    case Err(e) => Err(HistoryError + e)
    case Ok(history) => Ok(ChannelWindow(history))
  }

  /** With a thread timestamp, the replies one fetch returns, one to one and in order; without,
      the channel-fallback window. A failed fetch yields an error and no messages. */
  function ThreadContext(api: SlackApi, channel: string, threadTs: string): (r: Result<seq<Llm.Message>>)
    ensures threadTs == "" ==> r == LastHourContext(api, channel)
    ensures threadTs != "" ==> (r.Ok? <==> api.conversationReplies(channel, threadTs).Ok?)
    ensures threadTs != "" && r.Ok? ==>
      var replies := api.conversationReplies(channel, threadTs).value;
      |r.value| == |replies| && forall k :: 0 <= k < |replies| ==> r.value[k] == ToMessage(replies[k])
    ensures r.Ok? ==> Llm.Authored(r.value)
  {
    if threadTs != "" then
      match api.conversationReplies(channel, threadTs)
      case Err(e) => Err(RepliesError + e)
      case Ok(replies) => Ok(ThreadMessages(replies))
    else
      LastHourContext(api, channel)
  }

  // ---------------------------------------------------------------------------
  // Composition of the model request

  /** The context followed by the new message from the mentioning user. */
  function WithNewMessage(thread: seq<Llm.Message>, text: string, user: SlackUser): (r: seq<Llm.Message>)
    ensures |r| == |thread| + 1 && r[..|thread|] == thread
    ensures r[|thread|].role == UserRole && r[|thread|].content == text
    ensures r[|thread|].user == Some(Llm.User(user.name, user.id))
    ensures Llm.Authored(thread) ==> Llm.Authored(r)
  {
    thread + [Llm.Message(UserRole, text, Some(Llm.User(user.name, user.id)))]
  }

  function TranscriptLine(m: Llm.Message): string
    requires m.user.Some?
  {
    m.user.value.slackId + "|" + m.user.value.slackName + ": " + m.content + "\n"
  }

  /** The generate-mode flattening: one `id|name: content` line per message. */
  function Transcript(ms: seq<Llm.Message>): string
    requires Llm.Authored(ms)
  {
    if ms == [] then "" else Transcript(ms[..|ms| - 1]) + TranscriptLine(ms[|ms| - 1])
  }

  lemma TranscriptSnoc(ms: seq<Llm.Message>, m: Llm.Message)
    requires Llm.Authored(ms) && m.user.Some?
    ensures Llm.Authored(ms + [m])
    ensures Transcript(ms + [m]) == Transcript(ms) + TranscriptLine(m)
  {
    assert (ms + [m])[..|ms|] == ms;
  }

  lemma {:induction false} TranscriptConcat(a: seq<Llm.Message>, b: seq<Llm.Message>)
    requires Llm.Authored(a) && Llm.Authored(b) && Llm.Authored(a + b)
    ensures Transcript(a + b) == Transcript(a) + Transcript(b)
  {
    if b == [] {
      assert a + b == a;
    } else {
      var b', m := b[..|b| - 1], b[|b| - 1];
      assert Llm.Authored(b');
      assert a + b == (a + b') + [m];
      assert Llm.Authored(a + b');
      TranscriptConcat(a, b');
      TranscriptSnoc(a + b', m);
      calc {
        Transcript(a + b);
        Transcript(a + b') + TranscriptLine(m);
        (Transcript(a) + Transcript(b')) + TranscriptLine(m);
        Transcript(a) + (Transcript(b') + TranscriptLine(m));
        Transcript(a) + Transcript(b);
      }
    }
  }

  /** The request the manager hands to the LLM client in a given mode. */
  function RequestFor(c: Llm.Client, mode: string, ms: seq<Llm.Message>): (req: Llm.Request)
    requires mode != ChatMode ==> Llm.Authored(ms)
    ensures mode == ChatMode ==> req.ChatRequest? && req.messages == ms + [Llm.SystemMessage(c)]
    ensures mode != ChatMode ==> req.GenerateRequest? && req.prompt == Llm.GeneratePrompt(c, Transcript(ms))
  {
    if mode == ChatMode then Llm.ChatRequestOf(c, ms) else Llm.GenerateRequestOf(c, Transcript(ms))
  }

  /** In generate mode the reply to a new message asks about the transcript of the
      context with the new message's line last, followed by the instruction. */
  lemma GeneratePromptOfNewMessage(c: Llm.Client, mode: string, thread: seq<Llm.Message>, text: string, user: SlackUser)
    requires mode != ChatMode && Llm.Authored(thread)
    ensures Llm.Authored(WithNewMessage(thread, text, user))
    ensures RequestFor(c, mode, WithNewMessage(thread, text, user)).prompt ==
      Transcript(thread) + user.id + "|" + user.name + ": " + text + "\n" + "\n" + c.instruction
  {
    var ms := WithNewMessage(thread, text, user);
    assert ms[..|ms| - 1] == thread;
    assert Transcript(ms) == Transcript(thread) + TranscriptLine(ms[|ms| - 1]);
  }

  const ReactionPromptHead := "User reacted with :"
  const ReactionPromptTail := ": to my message"

  function ReactionPrompt(reaction: string): (p: string)
    ensures |p| == |ReactionPromptHead| + |reaction| + |ReactionPromptTail|
    ensures p[..|ReactionPromptHead|] == ReactionPromptHead
    ensures p[|ReactionPromptHead|..|ReactionPromptHead| + |reaction|] == reaction
    ensures p[|ReactionPromptHead| + |reaction|..] == ReactionPromptTail
  {
    ReactionPromptHead + reaction + ReactionPromptTail
  }

  /** The thread option is added exactly when a thread timestamp is given. */
  function PostRequestOf(channel: string, text: string, threadTs: string): (p: Post)
    ensures p.channel == channel
    ensures |p.options| == if threadTs == "" then 3 else 4
    ensures p.options[..3] == [OptText(text, false), OptEnableLinkUnfurl, OptAsUser(true)]
    ensures threadTs != "" ==> p.options[3] == OptThreadTs(threadTs)
    ensures forall i :: 0 <= i < |p.options| && p.options[i].OptThreadTs? ==> threadTs != "" && p.options[i].ts == threadTs
  {
    var opts := [OptText(text, false), OptEnableLinkUnfurl, OptAsUser(true)];
    Post(channel, if threadTs != "" then opts + [OptThreadTs(threadTs)] else opts)
  }

  // ---------------------------------------------------------------------------
  // The manager

  class ConversationManager {
    const client: SlackApi
    const llmClient: Llm.Client
    const llmMode: string
    /** Whether the embedding call succeeds for a text (the vector itself is not modelled). */
    const embeds: string -> bool
    /** Channels whose history has been loaded, with what was loaded. */
    var messageHistory: map<string, seq<SlackMsg>>

    constructor (client: SlackApi, llmClient: Llm.Client, llmMode: string, embeds: string -> bool)
      ensures this.client == client && this.llmClient == llmClient
      ensures this.llmMode == llmMode && this.embeds == embeds
      ensures messageHistory == map[]
    {
      this.client := client;
      this.llmClient := llmClient;
      this.llmMode := llmMode;
      this.embeds := embeds;
      messageHistory := map[];
    }

    /** No manager without a vector store. */
    static method New(client: SlackApi, llmClient: Llm.Client, llmMode: string, embeds: string -> bool,
                      hasVectorDb: bool) returns (m: ConversationManager?)
      ensures m == null <==> !hasVectorDb
      ensures m != null ==> fresh(m) && m.client == client && m.llmClient == llmClient &&
                            m.llmMode == llmMode && m.embeds == embeds && m.messageHistory == map[]
    {
      if !hasVectorDb {
        return null;
      }
      m := new ConversationManager(client, llmClient, llmMode, embeds);
    }

    /** Filters and converts in one pass, then reverses in place with two indices. */
    method GetLastHourConversation(channel: string) returns (r: Result<seq<Llm.Message>>)
      ensures r == LastHourContext(client, channel)
    {
      var fetched := client.recentHistory(channel);
      if fetched.Err? {
        return Err(HistoryError + fetched.error);
      }
      var history := fetched.value;
      var kept: seq<Llm.Message> := [];
      var i := 0;
      while i < |history|
        invariant 0 <= i <= |history|
        invariant kept == Unthreaded(history[..i])
      {
        assert history[..i + 1][..i] == history[..i];
        var msg := history[i];
        if msg.threadTs == "" {
          kept := kept + [ToMessage(msg)];
        }
        i := i + 1;
      }
      assert history[..i] == history;

      var messages := new Llm.Message[|kept|](k requires 0 <= k < |kept| => kept[k]);
      assert messages[..] == kept;
      ReverseInPlace(messages);
      r := Ok(messages[..]);
    }

    /** The two-index swap loop that turns the newest-first window around. */
    static method ReverseInPlace(messages: array<Llm.Message>)
      modifies messages
      ensures messages[..] == Reversed(old(messages[..]))
    {
      ghost var before := messages[..];
      var n := messages.Length;
      var lo, hi := 0, n - 1;
      while lo < hi
        invariant 0 <= lo && 2 * lo <= n && hi == n - 1 - lo
        invariant forall k :: 0 <= k < lo ==> messages[k] == before[n - 1 - k]
        invariant forall k :: n - lo <= k < n ==> messages[k] == before[n - 1 - k]
        invariant forall k :: lo <= k < n - lo ==> messages[k] == before[k]
      {
        messages[lo], messages[hi] := messages[hi], messages[lo];
        lo, hi := lo + 1, hi - 1;
      }
      assert messages[..] == Reversed(before);
    }

    method GetThreadContext(channel: string, threadTs: string) returns (r: Result<seq<Llm.Message>>)
      ensures r == ThreadContext(client, channel, threadTs)
    {
      if threadTs != "" {
        var fetched := client.conversationReplies(channel, threadTs);
        if fetched.Err? {
          return Err(RepliesError + fetched.error);
        }
        var replies := fetched.value;
        var messages: seq<Llm.Message> := [];
        var i := 0;
        while i < |replies|
          invariant 0 <= i <= |replies|
          invariant messages == ThreadMessages(replies[..i])
        {
          assert replies[..i + 1][..i] == replies[..i];
          messages := messages + [ToMessage(replies[i])];
          i := i + 1;
        }
        assert replies[..i] == replies;
        return Ok(messages);
      }
      r := GetLastHourConversation(channel);
    }

    /** Asks the model about the context plus the new message. */
    method ProcessMessage(thread: seq<Llm.Message>, text: string, user: SlackUser)
      returns (asked: Llm.Request, r: Result<string>)
      requires llmMode != ChatMode ==> Llm.Authored(thread)
      ensures asked == RequestFor(llmClient, llmMode, WithNewMessage(thread, text, user))
      ensures r == Llm.Interpret(llmClient.backend(asked))
    {
      var messages := WithNewMessage(thread, text, user);
      asked, r := GetLLMResponse(messages);
    }

    method ProcessReaction(reaction: string) returns (asked: Llm.Request, r: Result<string>)
      ensures asked == Llm.GenerateRequestOf(llmClient, ReactionPrompt(reaction))
      ensures r == Llm.Generate(llmClient, ReactionPrompt(reaction))
    {
      var prompt := ReactionPromptHead + reaction + ReactionPromptTail;
      asked := Llm.GenerateRequestOf(llmClient, prompt);
      r := Llm.Generate(llmClient, prompt);
    }

    /** Chat mode passes the list as it is; any other mode writes the transcript
        line by line and generates from it. */
    method GetLLMResponse(messages: seq<Llm.Message>) returns (asked: Llm.Request, r: Result<string>)
      requires llmMode != ChatMode ==> Llm.Authored(messages)
      ensures asked == RequestFor(llmClient, llmMode, messages)
      ensures llmMode == ChatMode ==> r == Llm.Chat(llmClient, messages)
      ensures llmMode != ChatMode ==> r == Llm.Generate(llmClient, Transcript(messages))
    {
      if llmMode == ChatMode {
        asked := Llm.ChatRequestOf(llmClient, messages);
        r := Llm.Chat(llmClient, messages);
      } else {
        var fullContext := "";
        var i := 0;
        while i < |messages|
          invariant 0 <= i <= |messages|
          invariant Llm.Authored(messages[..i])
          invariant fullContext == Transcript(messages[..i])
        {
          assert messages[..i + 1][..i] == messages[..i];
          var msg := messages[i];
          fullContext := fullContext + msg.user.value.slackId + "|" + msg.user.value.slackName + ": " + msg.content + "\n";
          i := i + 1;
        }
        assert messages[..i] == messages;
        asked := Llm.GenerateRequestOf(llmClient, fullContext);
        r := Llm.Generate(llmClient, fullContext);
      }
    }

    /** Records a channel's history only when the fetch succeeds. */
    method LoadHistory(channelId: string)
      modifies this
      ensures messageHistory == match client.history(channelId)
                                case Ok(h) => old(messageHistory)[channelId := h]
                                case Err(_) => old(messageHistory)
    {
      var fetched := client.history(channelId);
      if fetched.Err? {
        return;
      }
      messageHistory := messageHistory[channelId := fetched.value];
    }

    /** Loads a channel's history the first time the channel is seen, then hands
        the message to the vector store if its embedding succeeds. */
    method ProcessIncommingMessage(text: string, user: SlackUser, channelId: string)
      returns (historyFetched: bool, stored: Option<VectorRecord>)
      modifies this
      ensures historyFetched <==> channelId !in old(messageHistory)
      ensures messageHistory == if historyFetched && client.history(channelId).Ok?
                                then old(messageHistory)[channelId := client.history(channelId).value]
                                else old(messageHistory)
      ensures stored == if embeds(text) then Some(VectorRecord(text, user.id, channelId)) else None
    {
      historyFetched := channelId !in messageHistory;
      if historyFetched {
        LoadHistory(channelId);
      }
      if !embeds(text) {
        return historyFetched, None;
      }
      stored := Some(VectorRecord(text, user.id, channelId));
    }

    method PostResponse(channel: string, response: string, threadTs: string)
      returns (sent: Post, err: Option<string>)
      ensures sent == PostRequestOf(channel, response, threadTs)
      ensures err == client.postMessage(sent)
    {
      var opts := [OptText(response, false), OptEnableLinkUnfurl, OptAsUser(true)];
      if threadTs != "" {
        opts := opts + [OptThreadTs(threadTs)];
      }
      sent := Post(channel, opts);
      err := client.postMessage(sent);
    }
  }
}
