# go-brain Slack pipeline in Dafny

A model of the event-to-reply pipeline of go-brain, the Go service behind the
bee-brain Slack bot. It covers three files:

- `go-brain/internal/slack/handler.go`: the webhook handler. It acknowledges every
  delivery with status 200, answers URL-verification challenges, dispatches callback
  events, drops duplicates through a store of event keys that expire after an hour, and
  runs three event flows:
  - an app mention gets a reply from the language model
  - a plain message is archived
  - a reaction on one of the bot's own messages gets a generated comment
- `go-brain/internal/slack/conversation_manager.go`: the conversation manager. It builds
  the context for a reply: the replies that one fetch of the thread returns, or the channel's
  last hour without thread replies, oldest first. It also infers each message's role (bot or user), shapes the
  model request for chat or generate mode, posts replies, and archives plain messages.
- `go-brain/internal/llm/client.go`: the Ollama client. It appends a fixed style
  instruction to every chat and generate request, sends chat and generate requests, accepts only finished
  responses, and builds the summarisation prompt.

Layout:

| file | module | models |
|---|---|---|
| `results.dfy` | `Results` | `Option` and `Result` |
| `llm.dfy` | `Llm` | the client |
| `conversation.dfy` | `Conversation` | the manager, as the class `ConversationManager` |
| `handler.dfy` | `Handler` | the handler, as the class `SlackHandler` |

What the code calls out to is given, not computed:

- Slack's Web API is the value `SlackApi`. Each of its fields gives the answer to one
  call for given arguments.
- The HTTP exchange with Ollama is `Llm.Backend`. It maps the request the client would
  marshal to what reading and decoding the response produced.
- Whether an embedding succeeds is `ConversationManager.embeds`.
- The clock is a `now` parameter, in nanoseconds.

A handler run returns the HTTP response together with the list of calls it made that
change something outside it. These calls are the `Effect`s: reactions added and
removed, model requests, posts, history loads and vector-store writes.

Behaviours of the code that are easy to get wrong, and that the model keeps:

- There is no fast path for retry headers.
- A plain message is never answered, whether or not it mentions the bot. It is only
  archived.
- An edited message, like any message with a subtype, is only logged.
- A reaction is answered whatever its name, through one generate call on the prompt
  "User reacted with :<name>: to my message". It is not a summary of the thread.
- A failed generation on the reaction path posts nothing; there is no apology.
- The "eyes" reaction is left in place when posting the reply fails.
- The handler and the conversation manager use one Slack client: the handler's calls go
  through `manager.client`.

## Model

| member | source | states |
|---|---|---|
| Llm.NewClient | go-brain/internal/llm/client.go:44-55 | a new client carries the fixed style instruction and the given HTTP exchange |
| Llm.Interpret | go-brain/internal/llm/client.go:74-105 | a reply yields text exactly when it decoded and is marked done, and then yields its content verbatim; an unfinished reply is "response not complete"; a decoding failure is reported with its cause |
| Llm.ChatRequestOf | go-brain/internal/llm/client.go:51-62 | the chat body uses model llama3, does not stream, and carries the caller's messages unchanged followed by exactly one system message holding the instruction |
| Llm.Chat | go-brain/internal/llm/client.go:51-106 | chat succeeds with text t only if the exchange answered a finished response with content t, and it succeeds whenever the exchange did |
| Llm.GeneratePrompt | go-brain/internal/llm/client.go:108-110 | the generate prompt is the caller's prompt, one newline, then the instruction, each at its position |
| Llm.GeneratePromptInjective | go-brain/internal/llm/client.go:108-110 | distinct prompts remain distinct after the instruction is appended |
| Llm.GenerateRequestOf | go-brain/internal/llm/client.go:114-118 | the generate body uses model llama3, does not stream, and carries the augmented prompt |
| Llm.Generate | go-brain/internal/llm/client.go:108-159 | generate succeeds with text t only if the exchange answered a finished response with content t, and it succeeds whenever the exchange did |
| Llm.SummaryLinesConcat | go-brain/internal/llm/client.go:167-170 | the per-message summary lines of a concatenation are the lines of its parts, in order |
| Llm.Summarize | go-brain/internal/llm/client.go:161-177 | the loop builds the header, one `name: content` line per message in order, and the trailer, and the result is the generate call on that prompt |
| Llm.SummaryPromptShape | go-brain/internal/llm/client.go:161-177 | appending a message to the conversation inserts exactly its line before the trailer |
| Conversation.TruncateForLog | go-brain/internal/slack/conversation_manager.go:28-36 | a log message of at most 50 bytes is unchanged; a longer one becomes its first 50 bytes followed by "..." |
| Conversation.TruncateIdempotent | go-brain/internal/slack/conversation_manager.go:28-36 | truncating twice gives the same result as truncating once |
| Conversation.RoleOf | go-brain/internal/slack/conversation_manager.go:90-94 | the role is "assistant" exactly when the message has a bot id or the bot_message subtype, and "user" otherwise |
| Conversation.ThreadMessages | go-brain/internal/slack/conversation_manager.go:125-143 | thread replies are converted one to one, in the order they were fetched, and each names its author |
| Conversation.Unthreaded | go-brain/internal/slack/conversation_manager.go:82-104 | filtering out thread replies never adds messages, and each kept message names its author |
| Conversation.UnthreadedSound | go-brain/internal/slack/conversation_manager.go:84-88 | every kept message is the conversion of a history message that has no thread timestamp |
| Conversation.UnthreadedComplete | go-brain/internal/slack/conversation_manager.go:84-88 | every history message without a thread timestamp is kept |
| Conversation.UnthreadedKeepsAll | go-brain/internal/slack/conversation_manager.go:84-104 | when no message belongs to a thread, the filter keeps the whole history and converts it as the thread path does |
| Conversation.Reversed | go-brain/internal/slack/conversation_manager.go:106-109 | the reversal has the same length, and position k holds the element from position n-1-k |
| Conversation.ChannelWindowFromHistory | go-brain/internal/slack/conversation_manager.go:70-112 | the fallback window holds exactly the unthreaded history messages: each window entry comes from one, and each one is in the window |
| Conversation.LastHourContext | go-brain/internal/slack/conversation_manager.go:70-112 | the last-hour context succeeds exactly when the history fetch does, and is then the reversed unthreaded window; a failed fetch is reported with the "failed to get conversation history" prefix |
| Conversation.ThreadContext | go-brain/internal/slack/conversation_manager.go:114-148 | with a thread timestamp the context succeeds exactly when the replies fetch does, and is then the fetched replies, one to one and in order; without one, it is the last-hour context |
| Conversation.WithNewMessage | go-brain/internal/slack/conversation_manager.go:149-161 | the context is kept as a prefix, and one user message with the new text and author is appended |
| Conversation.TranscriptSnoc | go-brain/internal/slack/conversation_manager.go:239-242 | appending a message appends exactly its `id\|name: content` line to the transcript |
| Conversation.TranscriptConcat | go-brain/internal/slack/conversation_manager.go:239-242 | the transcript of a concatenation is the concatenation of the transcripts |
| Conversation.RequestFor | go-brain/internal/slack/conversation_manager.go:232-245 | chat mode sends the messages followed by the system message; any other mode sends the instruction-augmented transcript |
| Conversation.GeneratePromptOfNewMessage | go-brain/internal/slack/conversation_manager.go:149-164 | in generate mode, the prompt for a new message is the context's transcript, then the new message's line, a newline, and the instruction |
| Conversation.ReactionPrompt | go-brain/internal/slack/conversation_manager.go:167-169 | the reaction prompt is "User reacted with :", then the reaction name, then ": to my message" |
| Conversation.PostRequestOf | go-brain/internal/slack/conversation_manager.go:247-258 | a post carries the unescaped text, link unfurling and as-user, and a thread option exactly when a thread timestamp is given, with that timestamp |
| Conversation.ConversationManager.New | go-brain/internal/slack/conversation_manager.go:47-68 | no manager is built without a vector store; otherwise the manager has the given collaborators and an empty history cache |
| Conversation.ConversationManager.GetLastHourConversation | go-brain/internal/slack/conversation_manager.go:70-112 | the filter loop and the in-place two-index reversal compute the last-hour context |
| Conversation.ConversationManager.ReverseInPlace | go-brain/internal/slack/conversation_manager.go:106-109 | swapping from both ends leaves the array reversed |
| Conversation.ConversationManager.GetThreadContext | go-brain/internal/slack/conversation_manager.go:114-148 | the conversion loop computes the thread context |
| Conversation.ConversationManager.ProcessMessage | go-brain/internal/slack/conversation_manager.go:149-165 | the model is asked the request for the context plus the new message in the configured mode, and the answer is that reply, interpreted |
| Conversation.ConversationManager.ProcessReaction | go-brain/internal/slack/conversation_manager.go:167-169 | a reaction is answered by one generate call on the reaction prompt |
| Conversation.ConversationManager.GetLLMResponse | go-brain/internal/slack/conversation_manager.go:232-245 | chat mode calls chat on the messages; any other mode builds the transcript line by line and calls generate on it |
| Conversation.ConversationManager.LoadHistory | go-brain/internal/slack/conversation_manager.go:207-230 | a successful fetch records the channel's history, and a failed fetch leaves the cache unchanged |
| Conversation.ConversationManager.ProcessIncommingMessage | go-brain/internal/slack/conversation_manager.go:171-205 | history is fetched exactly when the channel is not yet cached; the message is stored with its text, author and channel exactly when its embedding succeeds |
| Conversation.ConversationManager.PostResponse | go-brain/internal/slack/conversation_manager.go:247-268 | the post request is sent, and its error, if any, is returned |
| Handler.EventKeyInjective | go-brain/internal/slack/handler.go:133-134 | for event types without a colon, equal dedup keys mean equal types and equal timestamps |
| Handler.KindsNeverCollide | go-brain/internal/slack/handler.go:128-134 | the keys of the three handled event kinds never collide unless both kind and timestamp agree |
| Handler.Expire | go-brain/internal/slack/handler.go:270-281 | cleanup keeps exactly the entries at most one hour old, with their times unchanged |
| Handler.CheckAndRecord | go-brain/internal/slack/handler.go:127-145 | an empty timestamp is never a duplicate and records nothing; a known key is a duplicate and changes nothing; a new key is recorded at `now` and every other entry older than an hour is dropped |
| Handler.RepeatIsDuplicate | go-brain/internal/slack/handler.go:127-145 | an event that was just recorded is a duplicate at any later time |
| Handler.ExpiredKeyIsReprocessed | go-brain/internal/slack/handler.go:127-145 | a key over an hour old is dropped by the next insertion of another key, and its event is then processed again |
| Handler.LookupDoesNotExpire | go-brain/internal/slack/handler.go:136-139 | a lookup that finds the key changes nothing, however old the key is |
| Handler.UnknownEventUserAsWritten | go-brain/internal/slack/handler.go:228-234 | as written, any event with a non-empty author logs "Unknown User" |
| Handler.AsWrittenHidesKnownAuthor | go-brain/internal/slack/handler.go:228-234 | a known author is never the one logged |
| Handler.UnknownEventUser | go-brain/internal/slack/handler.go:228-234 | corrected: the event's author, else the embedded message's author, else "Unknown User" |
| Handler.UnknownEventUserAgreesOnlyWithoutAuthor | go-brain/internal/slack/handler.go:228-234 | the two versions agree exactly when the event has no author of its own |
| Handler.RouteOf | go-brain/internal/slack/handler.go:47-106 | unreadable or unverified deliveries are rejected; a challenge is echoed when it decodes; mentions and reactions go to their handlers carrying the delivered event; messages without a subtype are archived, and those with one are only acknowledged; anything else is ignored |
| Handler.SlackHandler.CleanupOldEvents | go-brain/internal/slack/handler.go:270-281 | the key-by-key deletion leaves exactly the expiry of the old store |
| Handler.SlackHandler.IsDuplicateEvent | go-brain/internal/slack/handler.go:127-145 | the answer and the new store are those of one check-and-record step |
| Handler.SlackHandler.UserOrFallback | go-brain/internal/slack/handler.go:163-170 | the user is Slack's answer, or a record with the event's id and the fallback name when the lookup fails |
| Handler.SlackHandler.MentionRequest | go-brain/internal/slack/handler.go:163-180 | the model is asked about the fetched thread context followed by the mention from the looked-up author; when fetching the context fails, about the mention alone |
| Handler.SlackHandler.MentionOutcome | go-brain/internal/slack/handler.go:147-203 | a mention adds "eyes" and asks the model once, about the thread context (empty when fetching it failed) followed by the mention from the looked-up author; it always posts a reply: the model's finished content, or the apology; "eyes" is removed exactly when the post succeeds; the status is always 200 |
| Handler.SlackHandler.HandleAppMention | go-brain/internal/slack/handler.go:147-151 | a duplicate mention is acknowledged with no calls; otherwise the mention outcome follows, after one dedup step |
| Handler.SlackHandler.RespondToMention | go-brain/internal/slack/handler.go:153-203 | the sequence of calls computes the mention outcome |
| Handler.SlackHandler.HandleIncommingMessage | go-brain/internal/slack/handler.go:205-226 | a plain message is acknowledged and never answered; unless it is a duplicate, its channel's history is loaded the first time the channel is seen, and it is stored when its embedding succeeds |
| Handler.SlackHandler.ReactionOutcome | go-brain/internal/slack/handler.go:248-267 | a reaction on another author's message causes no calls; on the bot's message it asks one generation, and posts into the item's thread exactly when the generation succeeds |
| Handler.SlackHandler.HandleReactionAdded | go-brain/internal/slack/handler.go:242-246 | the dedup step comes before the author check, and a duplicate is acknowledged with no calls |
| Handler.SlackHandler.RespondToReaction | go-brain/internal/slack/handler.go:248-267 | the sequence of calls computes the reaction outcome |
| Handler.SlackHandler.HandleSlackEvents | go-brain/internal/slack/handler.go:47-125 | every delivery is answered with status 200; only mentions, plain messages and reactions touch the dedup store; only plain messages touch the history cache; mentions and reactions get their handler's outcome; a plain message gets the dedup step and, unless it is a duplicate, the history load for a new channel and the vector-store write, and is never answered |

## Findings

| source | as written | input that shows it | evidently intended | confidence | as-written member | corrected member |
|---|---|---|---|---|---|---|
| go-brain/internal/slack/handler.go:229-234 | the `else` branch sets the logged author to "Unknown User" whenever the event's own author is non-empty | a message event with subtype `file_share` and user `U123` logs "Unknown User" | keep the event's author; fall back to the embedded message's author only when it is empty, and to "Unknown User" only when both are absent | high, not executed | Handler.UnknownEventUserAsWritten, Handler.AsWrittenHidesKnownAuthor | Handler.UnknownEventUser |

## Left out

- Reading the HTTP body, parsing and token verification of the envelope, and decoding the challenge are given as their outcome (`Delivery`, `UrlVerification(challenge)`). JSON marshalling is taken to succeed, so its error path is not modelled.
- The duplicate check is sequential. In the Go code the lookup and the insert are separate `sync.Map` calls, so two concurrent deliveries can both pass. The concurrency and that race are not modelled.
- Wall-clock time is a `now` parameter, and one `now` serves both the insertion and the cleanup of a call. The "last hour" bound on channel history (`Oldest`, limit 100) is part of the `recentHistory` answer, not computed.
- Embeddings, the vector store's contents, the RFC 3339 timestamp and store failures are not modelled. A message counts as stored exactly when its embedding succeeds.
- Logging is not modelled, including the attachments that `loadHistory` prints and the author that `handleUnknownEvent` logs. The truncation of log lines is kept, as a function on bytes. The author choice is modelled only as the two functions of the finding above; the dispatch route does not carry it.
- Start-up is not modelled: `NewBeeBrainSlackHandler`, `AuthTest`, and a handler built with a nil manager. The handler always holds a manager.
- The embedding request (`GetEmbedding`) is not modelled, apart from whether it succeeds.
- The Python prototypes in the repository are not part of this model.
- Only the first page of thread replies is read: the code ignores `hasMore` and the cursor, and the model's `conversationReplies` answer is that one page.
- Collaborators are deterministic: the same call with the same arguments gets the same answer within a run.
- Llm.Summarize: requires every message to name its author, because the Go code dereferences `msg.User` and would panic on a nil author.
- Conversation.ConversationManager.GetLLMResponse: generate mode requires every message to name its author, for the same reason.
- The `default` arm of the type switch at `go-brain/internal/slack/handler.go:95-99` re-tests for a message event. That test cannot succeed, because message events are matched earlier, so the arm only acknowledges.
- The Go client writes the instruction text inline. The model keeps it as a field of `Llm.Client`, which `Llm.NewClient` sets to the exact constant `Llm.Instruction`; the lemmas hold for any instruction text.
