/** The webhook handler (go-brain/internal/slack/handler.go): the deduplication
    store, the dispatch over event variants and the three event handlers. Reading
    the body and parsing and verifying the envelope are given as their outcome
    (`Delivery`); the Slack and LLM calls are the oracles of `Conversation` and
    `Llm`; what the handler asks of them is returned as a list of effects. */
module Handler {
  import opened Results
  import Llm
  import opened Conversation

  const StatusOK := 200
  /** time.Hour, in nanoseconds; times are nanoseconds since an epoch. */
  const Hour := 3_600_000_000_000
  const Eyes := "eyes"
  const Apology := "Sorry, I encountered an error processing your request."
  const MentionUnknownName := "Unknown UserName"
  const MessageUnknownName := "Unknown User"

  const AppMentionKind := "app_mention"
  const MessageKind := "message"
  const ReactionKind := "reaction_added"

  datatype Body = PlainText(text: string) | Json(fields: map<string, string>) | NoContent
  datatype HttpResponse = HttpResponse(status: int, body: Body)

  const Acknowledged := HttpResponse(StatusOK, NoContent)

  datatype AppMentionEvent = AppMentionEvent(user: string, text: string, channel: string, timeStamp: string,
                                             threadTimeStamp: string, eventTimeStamp: string)
  /** `nestedUser` is the author of the embedded message, when the event carries one. */
  datatype MessageEvent = MessageEvent(user: string, text: string, channel: string, subType: string,
                                       threadTimeStamp: string, eventTimeStamp: string,
                                       nestedUser: Option<string>)
  datatype ReactionAddedEvent = ReactionAddedEvent(user: string, reaction: string, itemUser: string,
                                                   item: ItemRef, eventTimestamp: string)

  datatype InnerEvent =
    | AppMention(mention: AppMentionEvent)
    | Message(message: MessageEvent)
    | ReactionAdded(reaction: ReactionAddedEvent)
    | OtherInner

  /** A parsed and verified envelope. For URL verification, the challenge the
      second decoding of the body produced, if it succeeded. */
  datatype SlackEvent =
    | UrlVerification(challenge: Option<string>)
    | Callback(inner: InnerEvent)
    | OtherOuter

  datatype Delivery = BodyUnreadable | Unverified | Parsed(event: SlackEvent)

  /** A call the handler makes that changes something outside it. */
  datatype Effect =
    | AddReaction(name: string, item: ItemRef)
    | RemoveReaction(name: string, item: ItemRef)
    | AskLlm(request: Llm.Request)
    | PostMessage(post: Post)
    | LoadHistory(channel: string)
    | StoreVector(record: VectorRecord)

  datatype Outcome = Outcome(response: HttpResponse, effects: seq<Effect>)

  // ---------------------------------------------------------------------------
  // Deduplication store

  function EventKey(eventType: string, eventTimestamp: string): string {
    eventType + ":" + eventTimestamp
  }

  /** Two keys built from colon-free event types are equal only when both the
      type and the timestamp are. */
  lemma {:induction false} EventKeyInjective(t1: string, ts1: string, t2: string, ts2: string)
    requires ':' !in t1 && ':' !in t2
    requires EventKey(t1, ts1) == EventKey(t2, ts2)
    ensures t1 == t2 && ts1 == ts2
  {
    var key := EventKey(t1, ts1);
    assert key == EventKey(t2, ts2);
    // the first colon of the key sits right after the event type
    assert key[|t1|] == ':' && key[|t2|] == ':';
    assert forall i :: 0 <= i < |t1| ==> key[i] == t1[i] && key[i] != ':';
    assert forall i :: 0 <= i < |t2| ==> key[i] == t2[i] && key[i] != ':';
    assert |t1| == |t2|;
    assert t1 == key[..|t1|] == t2;
    assert ts1 == key[|t1| + 1..] == ts2;
  }

  predicate IsEventKind(t: string) {
    t == AppMentionKind || t == MessageKind || t == ReactionKind
  }

  /** Events of different kinds never share a key, whatever their timestamps. */
  lemma KindsNeverCollide(t1: string, ts1: string, t2: string, ts2: string)
    requires IsEventKind(t1) && IsEventKind(t2)
    requires t1 != t2 || ts1 != ts2
    ensures EventKey(t1, ts1) != EventKey(t2, ts2)
  {
    if EventKey(t1, ts1) == EventKey(t2, ts2) {
      EventKeyInjective(t1, ts1, t2, ts2);
    }
  }

  /** The entries that survive a cleanup at `now`: those at most an hour old. */
  function Expire(store: map<string, int>, now: int): (r: map<string, int>)
    ensures forall k :: k in r <==> k in store && now - store[k] <= Hour
    ensures forall k :: k in r ==> r[k] == store[k]
  {
    map k | k in store && now - store[k] <= Hour :: store[k]
  }

  datatype DedupStep = DedupStep(duplicate: bool, store: map<string, int>)

  /** One call of the duplicate check: the answer and the store afterwards. */
  function CheckAndRecord(store: map<string, int>, eventType: string, eventTimestamp: string, now: int): (r: DedupStep)
    ensures eventTimestamp == "" ==> r == DedupStep(false, store)
    ensures eventTimestamp != "" && EventKey(eventType, eventTimestamp) in store ==> r == DedupStep(true, store)
    ensures eventTimestamp != "" && EventKey(eventType, eventTimestamp) !in store ==>
      var key := EventKey(eventType, eventTimestamp);
      && !r.duplicate
      && key in r.store && r.store[key] == now
      && (forall k :: k in r.store && k != key <==> k in store && now - store[k] <= Hour)
      && (forall k :: k in r.store && k != key ==> r.store[k] == store[k])
  {
    if eventTimestamp == "" then DedupStep(false, store)
    else
      var key := EventKey(eventType, eventTimestamp);
      if key in store then DedupStep(true, store)
      else DedupStep(false, Expire(store[key := now], now))
  }

  /** After recording an event, the same event is a duplicate at any later time,
      until a later insertion expires it. */
  lemma RepeatIsDuplicate(store: map<string, int>, eventType: string, eventTimestamp: string, now: int, later: int)
    requires eventTimestamp != ""
    ensures CheckAndRecord(CheckAndRecord(store, eventType, eventTimestamp, now).store, eventType, eventTimestamp, later).duplicate
  {
  }

  /** A key over an hour old is dropped by the next insertion of another key,
      after which its event is processed again. */
  lemma ExpiredKeyIsReprocessed(store: map<string, int>, eventType: string, eventTimestamp: string,
                                otherType: string, otherTimestamp: string, now: int, later: int)
    requires eventTimestamp != "" && EventKey(eventType, eventTimestamp) in store
    requires now - store[EventKey(eventType, eventTimestamp)] > Hour
    requires otherTimestamp != "" && EventKey(otherType, otherTimestamp) !in store
    ensures EventKey(eventType, eventTimestamp) !in CheckAndRecord(store, otherType, otherTimestamp, now).store
    ensures !CheckAndRecord(CheckAndRecord(store, otherType, otherTimestamp, now).store, eventType, eventTimestamp, later).duplicate
  {
  }

  /** A lookup never expires anything: an old key stays a duplicate until an
      insertion happens. */
  lemma LookupDoesNotExpire(store: map<string, int>, eventType: string, eventTimestamp: string, now: int)
    requires eventTimestamp != "" && EventKey(eventType, eventTimestamp) in store
    ensures CheckAndRecord(store, eventType, eventTimestamp, now) == DedupStep(true, store)
  {
  }

  // ---------------------------------------------------------------------------
  // The author logged for a message of an unhandled subtype

  /** The choice as the code makes it: the `else` arm also catches a non-empty
      author, so a known author is always logged as unknown. */
  function UnknownEventUserAsWritten(ev: MessageEvent): (u: string)
    ensures ev.user != "" ==> u == MessageUnknownName
    ensures ev.user == "" ==> u == (if ev.nestedUser.Some? then ev.nestedUser.value else MessageUnknownName)
  {
    if ev.user == "" && ev.nestedUser.Some? then ev.nestedUser.value else MessageUnknownName
  }

  /** A message whose author is known is logged as coming from an unknown user. */
  lemma AsWrittenHidesKnownAuthor(ev: MessageEvent)
    requires ev.user != "" && ev.user != MessageUnknownName
    ensures UnknownEventUserAsWritten(ev) != ev.user
  {
  }

  /** The evident intent: the event's author, else the embedded message's author,
      else the placeholder. */
  function UnknownEventUser(ev: MessageEvent): (u: string)
    ensures ev.user != "" ==> u == ev.user
    ensures ev.user == "" && ev.nestedUser.Some? ==> u == ev.nestedUser.value
    ensures ev.user == "" && ev.nestedUser.None? ==> u == MessageUnknownName
  {
    if ev.user != "" then ev.user
    else if ev.nestedUser.Some? then ev.nestedUser.value
    else MessageUnknownName
  }

  /** Both versions agree exactly when the event has no author of its own. */
  lemma UnknownEventUserAgreesOnlyWithoutAuthor(ev: MessageEvent)
    requires ev.user != MessageUnknownName
    ensures UnknownEventUser(ev) == UnknownEventUserAsWritten(ev) <==> ev.user == ""
  {
  }

  // ---------------------------------------------------------------------------
  // Dispatch

  datatype Route =
    | Reject
    | Echo(challenge: string)
    | BadChallenge
    | ToAppMention(mention: AppMentionEvent)
    | ToIncoming(message: MessageEvent)
    | LogOnly
    | ToReaction(reaction: ReactionAddedEvent)
    | Ignore

  /** Which branch of `HandleSlackEvents` a delivery takes. */
  function RouteOf(d: Delivery): (r: Route)
    ensures r.Reject? <==> !d.Parsed?
    ensures r.Echo? <==> d.Parsed? && d.event.UrlVerification? && d.event.challenge.Some?
    ensures r.Echo? ==> r.challenge == d.event.challenge.value
    ensures r.ToIncoming? <==> d.Parsed? && d.event.Callback? && d.event.inner.Message? && d.event.inner.message.subType == ""
    ensures r.LogOnly? <==> d.Parsed? && d.event.Callback? && d.event.inner.Message? && d.event.inner.message.subType != ""
    ensures r.ToIncoming? ==> r.message == d.event.inner.message
    ensures r.ToAppMention? <==> d.Parsed? && d.event.Callback? && d.event.inner.AppMention?
    ensures r.ToReaction? <==> d.Parsed? && d.event.Callback? && d.event.inner.ReactionAdded?
    ensures r.ToAppMention? ==> r.mention == d.event.inner.mention
    ensures r.ToReaction? ==> r.reaction == d.event.inner.reaction
    ensures r.Ignore? <==> d.Parsed? && (d.event.OtherOuter? || (d.event.Callback? && d.event.inner.OtherInner?))
  {
    match d
    case BodyUnreadable => Reject
    case Unverified => Reject
    case Parsed(UrlVerification(challenge)) =>
      if challenge.Some? then Echo(challenge.value) else BadChallenge
    case Parsed(Callback(AppMention(ev))) => ToAppMention(ev)
    case Parsed(Callback(Message(ev))) => if ev.subType == "" then ToIncoming(ev) else LogOnly
    case Parsed(Callback(ReactionAdded(ev))) => ToReaction(ev)
    case Parsed(Callback(OtherInner)) => Ignore
    case Parsed(OtherOuter) => Ignore
  }

  // ---------------------------------------------------------------------------
  // The handler

  /** The handler and its manager share one Slack client (`manager.client`). */
  class SlackHandler {
    const botUserID: string
    const manager: ConversationManager
    /** Event key to the time it was first seen. */
    var processedEvents: map<string, int>

    constructor (botUserID: string, manager: ConversationManager)
      ensures this.botUserID == botUserID && this.manager == manager
      ensures processedEvents == map[]
    {
      this.botUserID := botUserID;
      this.manager := manager;
      processedEvents := map[];
    }

    /** Deletes, one key at a time, every entry more than an hour old. */
    method CleanupOldEvents(now: int)
      modifies this
      ensures processedEvents == Expire(old(processedEvents), now)
    {
      ghost var before := processedEvents;
      var pending := processedEvents.Keys;
      while pending != {}
        invariant pending <= before.Keys
        invariant forall k :: k in processedEvents <==> k in before && (k in pending || now - before[k] <= Hour)
        invariant forall k :: k in processedEvents ==> processedEvents[k] == before[k]
        decreases pending
      {
        var key :| key in pending;
        if now - processedEvents[key] > Hour {
          processedEvents := processedEvents - {key};
        }
        pending := pending - {key};
      }
    }

    method IsDuplicateEvent(eventType: string, eventTimestamp: string, now: int) returns (duplicate: bool)
      modifies this
      ensures DedupStep(duplicate, processedEvents) == CheckAndRecord(old(processedEvents), eventType, eventTimestamp, now)
    {
      if eventTimestamp == "" {
        return false;
      }
      var key := eventType + ":" + eventTimestamp;
      if key in processedEvents {
        return true;
      }
      processedEvents := processedEvents[key := now];
      CleanupOldEvents(now);
      return false;
    }

    /** The user the handler acts for: Slack's answer, or the fallback record. */
    function UserOrFallback(id: string, fallbackName: string): (u: SlackUser)
      ensures manager.client.userInfo(id).Ok? ==> u == manager.client.userInfo(id).value
      ensures manager.client.userInfo(id).Err? ==> u == SlackUser(id, fallbackName)
    {
      match manager.client.userInfo(id)
      case Ok(u) => u
      case Err(_) => SlackUser(id, fallbackName)
    }

    /** The request an app mention puts to the model: the thread context (empty
        when fetching it failed) followed by the mention. */
    function MentionRequest(ev: AppMentionEvent): (req: Llm.Request)
      ensures var context := ThreadContext(manager.client, ev.channel, ev.threadTimeStamp);
        var user := UserOrFallback(ev.user, MentionUnknownName);
        && (context.Ok? ==> req == RequestFor(manager.llmClient, manager.llmMode, WithNewMessage(context.value, ev.text, user)))
        && (context.Err? ==> req == RequestFor(manager.llmClient, manager.llmMode, WithNewMessage([], ev.text, user)))
    {
      var user := UserOrFallback(ev.user, MentionUnknownName);
      var context := ThreadContext(manager.client, ev.channel, ev.threadTimeStamp);
      RequestFor(manager.llmClient, manager.llmMode, WithNewMessage(if context.Ok? then context.value else [], ev.text, user))
    }

    /** The post answering an app mention: the model's text, or the apology. */
    function MentionPost(ev: AppMentionEvent): Post {
      var answer := Llm.Interpret(manager.llmClient.backend(MentionRequest(ev)));
      PostRequestOf(ev.channel, if answer.Ok? then answer.value else Apology, ev.threadTimeStamp)
    }

    /** What an app mention that is not a duplicate leads to. */
    function MentionOutcome(ev: AppMentionEvent): (out: Outcome)
      ensures out.response.status == StatusOK
      ensures |out.effects| == 3 || |out.effects| == 4
      ensures out.effects[0] == AddReaction(Eyes, ItemRef(ev.channel, ev.timeStamp))
      ensures out.effects[1].AskLlm? && out.effects[2].PostMessage?
      ensures out.effects[1] == AskLlm(MentionRequest(ev))
      ensures |out.effects[2].post.options| >= 3 && out.effects[2].post.options[0].OptText?
      ensures var text := out.effects[2].post.options[0].text;
        && out.effects[2].post == PostRequestOf(ev.channel, text, ev.threadTimeStamp)
        && (text == Apology || manager.llmClient.backend(out.effects[1].request) == Llm.Decoded(text, true))
        && (manager.llmClient.backend(out.effects[1].request).Decoded? && manager.llmClient.backend(out.effects[1].request).done ==>
              text == manager.llmClient.backend(out.effects[1].request).content)
      ensures |out.effects| == 4 <==> manager.client.postMessage(out.effects[2].post).None?
      ensures |out.effects| == 4 ==> out.effects[3] == RemoveReaction(Eyes, ItemRef(ev.channel, ev.timeStamp))
    {
      var item := ItemRef(ev.channel, ev.timeStamp);
      var post := MentionPost(ev);
      var effects := [AddReaction(Eyes, item), AskLlm(MentionRequest(ev)), PostMessage(post)];
      if manager.client.postMessage(post).Some? then
        Outcome(HttpResponse(StatusOK, PlainText("Error processing request")), effects)
      else if manager.client.removeReaction(Eyes, item).Some? then
        Outcome(HttpResponse(StatusOK, PlainText("Failed to remove reaction")), effects + [RemoveReaction(Eyes, item)])
      else
        Outcome(HttpResponse(StatusOK, PlainText("Message processed")), effects + [RemoveReaction(Eyes, item)])
    }

    method HandleAppMention(ev: AppMentionEvent, now: int) returns (out: Outcome)
      modifies this
      ensures var step := CheckAndRecord(old(processedEvents), AppMentionKind, ev.eventTimeStamp, now);
        && processedEvents == step.store
        && out == if step.duplicate then Outcome(Acknowledged, []) else MentionOutcome(ev)
    {
      var duplicate := IsDuplicateEvent(AppMentionKind, ev.eventTimeStamp, now);
      if duplicate {
        return Outcome(Acknowledged, []);
      }
      out := RespondToMention(ev);
    }

    /** The collaborator calls of an app mention, in order, after the duplicate check. */
    method RespondToMention(ev: AppMentionEvent) returns (out: Outcome)
      ensures out == MentionOutcome(ev)
    {
      var item := ItemRef(ev.channel, ev.timeStamp);
      var user := UserOrFallback(ev.user, MentionUnknownName);
      var context := manager.GetThreadContext(ev.channel, ev.threadTimeStamp);
      var thread := if context.Ok? then context.value else [];
      var asked, answer := manager.ProcessMessage(thread, ev.text, user);
      assert asked == MentionRequest(ev);
      var response := if answer.Ok? then answer.value else Apology;
      var sent, postError := manager.PostResponse(ev.channel, response, ev.threadTimeStamp);
      assert sent == MentionPost(ev);
      var effects := [AddReaction(Eyes, item), AskLlm(asked), PostMessage(sent)];
      if postError.Some? {
        return Outcome(HttpResponse(StatusOK, PlainText("Error processing request")), effects);
      }
      var removeError := manager.client.removeReaction(Eyes, item);
      effects := effects + [RemoveReaction(Eyes, item)];
      if removeError.Some? {
        return Outcome(HttpResponse(StatusOK, PlainText("Failed to remove reaction")), effects);
      }
      return Outcome(HttpResponse(StatusOK, PlainText("Message processed")), effects);
    }

    /** A plain message is never answered: its channel's history is loaded once
        and the message goes to the vector store. */
    method HandleIncommingMessage(ev: MessageEvent, now: int) returns (out: Outcome)
      modifies this, manager
      ensures var step := CheckAndRecord(old(processedEvents), MessageKind, ev.eventTimeStamp, now);
        && processedEvents == step.store
        && out.response == Acknowledged
        && (step.duplicate ==> out.effects == [] && manager.messageHistory == old(manager.messageHistory))
        && (!step.duplicate ==>
              var fetched := ev.channel !in old(manager.messageHistory);
              var user := UserOrFallback(ev.user, MessageUnknownName);
              && manager.messageHistory ==
                   (if fetched && manager.client.history(ev.channel).Ok?
                    then old(manager.messageHistory)[ev.channel := manager.client.history(ev.channel).value]
                    else old(manager.messageHistory))
              && out.effects ==
                   (if fetched then [LoadHistory(ev.channel)] else []) +
                   (if manager.embeds(ev.text) then [StoreVector(VectorRecord(ev.text, user.id, ev.channel))] else []))
    {
      var duplicate := IsDuplicateEvent(MessageKind, ev.eventTimeStamp, now);
      if duplicate {
        return Outcome(Acknowledged, []);
      }
      var user := UserOrFallback(ev.user, MessageUnknownName);
      var fetched, stored := manager.ProcessIncommingMessage(ev.text, user, ev.channel);
      var effects := if fetched then [LoadHistory(ev.channel)] else [];
      if stored.Some? {
        effects := effects + [StoreVector(stored.value)];
      }
      return Outcome(Acknowledged, effects);
    }

    /** What a reaction that is not a duplicate leads to: nothing unless the
        reacted-to item is the bot's; then one generation and, if it succeeds,
        one post into the item's thread. */
    function ReactionOutcome(ev: ReactionAddedEvent): (out: Outcome)
      ensures out.response.status == StatusOK
      ensures out.effects == [] <==> ev.itemUser != botUserID
      ensures ev.itemUser == botUserID ==> out.effects[0] == AskLlm(Llm.GenerateRequestOf(manager.llmClient, ReactionPrompt(ev.reaction)))
      ensures |out.effects| == 2 <==> ev.itemUser == botUserID && Llm.Generate(manager.llmClient, ReactionPrompt(ev.reaction)).Ok?
      ensures |out.effects| == 2 ==>
        out.effects[1] == PostMessage(PostRequestOf(ev.item.channel, Llm.Generate(manager.llmClient, ReactionPrompt(ev.reaction)).value, ev.item.timestamp))
      ensures |out.effects| <= 2
    {
      if ev.itemUser != botUserID then Outcome(Acknowledged, [])
      else
        var asked := Llm.GenerateRequestOf(manager.llmClient, ReactionPrompt(ev.reaction));
        var answer := Llm.Generate(manager.llmClient, ReactionPrompt(ev.reaction));
        if answer.Err? then Outcome(HttpResponse(StatusOK, PlainText("Error processing reaction")), [AskLlm(asked)])
        else
          var post := PostRequestOf(ev.item.channel, answer.value, ev.item.timestamp);
          if manager.client.postMessage(post).Some? then
            Outcome(HttpResponse(StatusOK, PlainText("Error posting response")), [AskLlm(asked), PostMessage(post)])
          else
            Outcome(Acknowledged, [AskLlm(asked), PostMessage(post)])
    }

    /** The duplicate check runs before the author check, so a reaction on
        someone else's message still consumes its key. */
    method HandleReactionAdded(ev: ReactionAddedEvent, now: int) returns (out: Outcome)
      modifies this
      ensures var step := CheckAndRecord(old(processedEvents), ReactionKind, ev.eventTimestamp, now);
        && processedEvents == step.store
        && out == if step.duplicate then Outcome(Acknowledged, []) else ReactionOutcome(ev)
    {
      var duplicate := IsDuplicateEvent(ReactionKind, ev.eventTimestamp, now);
      if duplicate {
        return Outcome(Acknowledged, []);
      }
      out := RespondToReaction(ev);
    }

    /** The author check and the collaborator calls of a reaction, after the duplicate check. */
    method RespondToReaction(ev: ReactionAddedEvent) returns (out: Outcome)
      ensures out == ReactionOutcome(ev)
    {
      if ev.itemUser != botUserID {
        return Outcome(Acknowledged, []);
      }
      var asked, answer := manager.ProcessReaction(ev.reaction);
      if answer.Err? {
        return Outcome(HttpResponse(StatusOK, PlainText("Error processing reaction")), [AskLlm(asked)]);
      }
      var sent, postError := manager.PostResponse(ev.item.channel, answer.value, ev.item.timestamp);
      if postError.Some? {
        return Outcome(HttpResponse(StatusOK, PlainText("Error posting response")), [AskLlm(asked), PostMessage(sent)]);
      }
      return Outcome(Acknowledged, [AskLlm(asked), PostMessage(sent)]);
    }

    /** Every delivery is acknowledged with status 200; only mentions, plain
        messages and reactions touch the store or call out. */
    method HandleSlackEvents(d: Delivery, now: int) returns (out: Outcome)
      modifies this, manager
      ensures out.response.status == StatusOK
      ensures RouteOf(d).Reject? ==> out == Outcome(HttpResponse(StatusOK, PlainText("Invalid request")), [])
      ensures RouteOf(d).Echo? ==> out == Outcome(HttpResponse(StatusOK, Json(map["challenge" := RouteOf(d).challenge])), [])
      ensures RouteOf(d).BadChallenge? ==> out == Outcome(HttpResponse(StatusOK, PlainText("Invalid challenge")), [])
      ensures RouteOf(d).LogOnly? || RouteOf(d).Ignore? ==> out == Outcome(Acknowledged, [])
      ensures !(RouteOf(d).ToAppMention? || RouteOf(d).ToIncoming? || RouteOf(d).ToReaction?) ==>
        processedEvents == old(processedEvents)
      ensures !RouteOf(d).ToIncoming? ==> manager.messageHistory == old(manager.messageHistory)
      ensures RouteOf(d).ToAppMention? ==>
        var ev := RouteOf(d).mention;
        var step := CheckAndRecord(old(processedEvents), AppMentionKind, ev.eventTimeStamp, now);
        processedEvents == step.store && out == if step.duplicate then Outcome(Acknowledged, []) else MentionOutcome(ev)
      ensures RouteOf(d).ToReaction? ==>
        var ev := RouteOf(d).reaction;
        var step := CheckAndRecord(old(processedEvents), ReactionKind, ev.eventTimestamp, now);
        processedEvents == step.store && out == if step.duplicate then Outcome(Acknowledged, []) else ReactionOutcome(ev)
      ensures RouteOf(d).ToIncoming? ==>
        var ev := RouteOf(d).message;
        var step := CheckAndRecord(old(processedEvents), MessageKind, ev.eventTimeStamp, now);
        && processedEvents == step.store
        && out.response == Acknowledged
        && (step.duplicate ==> out.effects == [] && manager.messageHistory == old(manager.messageHistory))
        && (!step.duplicate ==>
              var fetched := ev.channel !in old(manager.messageHistory);
              var user := UserOrFallback(ev.user, MessageUnknownName);
              && manager.messageHistory ==
                   (if fetched && manager.client.history(ev.channel).Ok?
                    then old(manager.messageHistory)[ev.channel := manager.client.history(ev.channel).value]
                    else old(manager.messageHistory))
              && out.effects ==
                   (if fetched then [LoadHistory(ev.channel)] else []) +
                   (if manager.embeds(ev.text) then [StoreVector(VectorRecord(ev.text, user.id, ev.channel))] else []))
      ensures RouteOf(d).ToIncoming? ==> forall e :: e in out.effects ==> !e.AskLlm? && !e.PostMessage?
    {
      match d {
        case BodyUnreadable =>
          return Outcome(HttpResponse(StatusOK, PlainText("Invalid request")), []);
        case Unverified =>
          return Outcome(HttpResponse(StatusOK, PlainText("Invalid request")), []);
        case Parsed(event) =>
          match event {
            case UrlVerification(challenge) =>
              if challenge.None? {
                return Outcome(HttpResponse(StatusOK, PlainText("Invalid challenge")), []);
              }
              return Outcome(HttpResponse(StatusOK, Json(map["challenge" := challenge.value])), []);
            case Callback(inner) =>
              match inner {
                case AppMention(ev) =>
                  out := HandleAppMention(ev, now);
                case Message(ev) =>
                  if ev.subType == "" {
                    out := HandleIncommingMessage(ev, now);
                  } else {
                    out := Outcome(Acknowledged, []);
                  }
                case ReactionAdded(ev) =>
                  out := HandleReactionAdded(ev, now);
                case OtherInner =>
                  out := Outcome(Acknowledged, []);
              }
            case OtherOuter =>
              return Outcome(Acknowledged, []);
          }
      }
    }
  }
}
