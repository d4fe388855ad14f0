/**
 * controllers/chatController.js: sending a chat message (admission, chat lookup or
 * creation, the user's message, the model call, the assistant's message, the usage commit),
 * reading one chat, the paginated chat list, and owner-scoped rename and delete.
 */
module ChatController {
  import opened Wrappers
  import opened Db
  import opened JsText
  import opened Http
  import RateLimiter

  const DEFAULT_MODEL: string := "gpt-5.2"
  const TITLE_LENGTH: nat := 50
  const HISTORY_LIMIT: nat := 20
  const PAGE_SIZE: int := 20
  const NO_REPLY: string := "I couldn't generate a response."
  const UNAVAILABLE: string := "Service temporary unavailable. Please try again later."

  /** `message?.trim()` is truthy. */
  predicate NonBlank(message: Option<string>) {
    message.Some? && Trim(message.value) != ""
  }

  /** A new chat's title: the first 50 characters of the message. */
  function Title(message: string): (r: string)
    ensures |r| <= TITLE_LENGTH && r <= message
    ensures |message| <= TITLE_LENGTH ==> r == message
    ensures |message| > TITLE_LENGTH ==> |r| == TITLE_LENGTH
  {
    Prefix(message, TITLE_LENGTH)
  }

  /** `model = "gpt-5.2"`: the default applies only when the field is absent. */
  function ModelOrDefault(model: Option<string>): string {
    if model.Some? then model.value else DEFAULT_MODEL
  }

  datatype Role = User | Assistant

  /** One history entry as sent to the model; the fixed system persona precedes them all. */
  datatype ChatMessage = ChatMessage(role: Role, content: string)

  /** `m.user_role === "user" ? "user" : "assistant"`. */
  function RoleFor(userRole: string): (r: Role)
    ensures r == User <==> userRole == "user"
  {
    if userRole == "user" then User else Assistant
  }

  /** The history rows, mapped one by one to model messages. */
  function ToContext(history: seq<MessageRow>): (r: seq<ChatMessage>)
    ensures |r| == |history|
    ensures forall i :: 0 <= i < |history| ==>
      r[i] == ChatMessage(RoleFor(history[i].userRole), history[i].content)
  {
    if history == [] then [] else [ChatMessage(RoleFor(history[0].userRole), history[0].content)] + ToContext(history[1..])
  }

  /** The messages of one chat, in `created_at` order. */
  function HistoryOf(messages: seq<MessageRow>, chatId: ChatId): (r: seq<MessageRow>)
    ensures |r| <= |messages|
  {
    if messages == [] then []
    else HistoryOf(messages[..|messages| - 1], chatId)
         + (if messages[|messages| - 1].chatId == chatId then [messages[|messages| - 1]] else [])
  }

  /** The history holds exactly the chat's messages. */
  lemma {:induction false} HistoryMembers(messages: seq<MessageRow>, chatId: ChatId)
    ensures forall m :: m in HistoryOf(messages, chatId) <==> m in messages && m.chatId == chatId
    decreases |messages|
  {
    if messages != [] {
      var init := messages[..|messages| - 1];
      HistoryMembers(init, chatId);
      assert messages == init + [messages[|messages| - 1]];
    }
  }

  /** Appending a message of the chat appends it to the chat's history. */
  lemma HistoryAppend(messages: seq<MessageRow>, m: MessageRow)
    ensures HistoryOf(messages + [m], m.chatId) == HistoryOf(messages, m.chatId) + [m]
  {
    assert (messages + [m])[..|messages + [m]| - 1] == messages;
  }

  /**
   * The window the code takes: `.order("created_at", ascending).limit(20)` keeps the
   * OLDEST 20 messages of the chat.
   */
  function OldestWindow(history: seq<MessageRow>): (r: seq<MessageRow>)
    ensures |r| <= HISTORY_LIMIT && r <= history
    ensures |r| == if |history| <= HISTORY_LIMIT then |history| else HISTORY_LIMIT
  {
    if |history| <= HISTORY_LIMIT then history else history[..HISTORY_LIMIT]
  }

  /** The window the context needs: the latest 20 messages, oldest first. */
  function LatestWindow(history: seq<MessageRow>): (r: seq<MessageRow>)
    ensures |r| <= HISTORY_LIMIT
    ensures |r| == if |history| <= HISTORY_LIMIT then |history| else HISTORY_LIMIT
    ensures r == history[|history| - |r|..]
  {
    if |history| <= HISTORY_LIMIT then history else history[|history| - HISTORY_LIMIT..]
  }

  /** On a short chat both windows are the whole history. */
  lemma WindowsAgreeOnShortChats(history: seq<MessageRow>)
    requires |history| <= HISTORY_LIMIT
    ensures OldestWindow(history) == LatestWindow(history) == history
  {
  }

  /** The corrected window always ends with the message just posted. */
  lemma LatestWindowHoldsNewMessage(history: seq<MessageRow>, m: MessageRow)
    ensures LatestWindow(history + [m]) != [] && LatestWindow(history + [m])[|LatestWindow(history + [m])| - 1] == m
  {
  }

  /**
   * The window as written loses the message just posted once the chat holds 20 earlier
   * messages: here 20 earlier questions and a new one that the model never sees.
   */
  lemma OldestWindowDropsNewMessage(chatId: ChatId)
    ensures var earlier := seq(20, i => MessageRow(chatId, "user", "earlier"));
      var posted := MessageRow(chatId, "user", "new");
      var history := HistoryOf(earlier + [posted], chatId);
      && posted in history
      && posted !in OldestWindow(history)
  {
    var earlier := seq(20, i => MessageRow(chatId, "user", "earlier"));
    var posted := MessageRow(chatId, "user", "new");
    EarlierHistory(earlier, chatId);
    HistoryAppend(earlier, posted);
    var history := HistoryOf(earlier + [posted], chatId);
    assert history == earlier + [posted];
    assert OldestWindow(history) == earlier;
    assert forall m :: m in earlier ==> m.content == "earlier";
  }

  lemma {:induction false} EarlierHistory(messages: seq<MessageRow>, chatId: ChatId)
    requires forall i :: 0 <= i < |messages| ==> messages[i].chatId == chatId
    ensures HistoryOf(messages, chatId) == messages
    decreases |messages|
  {
    if messages != [] {
      var init := messages[..|messages| - 1];
      var last := messages[|messages| - 1];
      assert last.chatId == chatId;
      EarlierHistory(init, chatId);
      assert init + [last] == messages;
    }
  }


  /** The model's answer: its content, or it threw. */
  datatype LlmReply = Answered(content: string) | Threw

  /** `content || "I couldn't generate a response."`, or the fallback text when the call threw. */
  function AssistantText(llm: LlmReply): (r: string)
    ensures r != ""
    ensures llm.Answered? && llm.content != "" ==> r == llm.content
    ensures llm == Answered("") ==> r == NO_REPLY
    ensures llm.Threw? ==> r == UNAVAILABLE
  {
    match llm
    case Threw => UNAVAILABLE
    case Answered(content) => if content != "" then content else NO_REPLY
  }

  datatype SendRequest = SendRequest(userId: Option<UserId>, chatId: Option<ChatId>, message: Option<string>, model: Option<string>)

  /** Store faults along `sendMessage`: each step's query may fail. */
  datatype SendFaults = SendFaults(
    usage: RateLimiter.ReadFaults, chatLookup: Option<string>, chatInsert: bool, userMessageInsert: bool,
    history: bool, assistantInsert: bool, commit: bool)

  /** Where the admission steps of `sendMessage` lead: an answer, an existing chat, or a new one. */
  datatype Route = Stop(response: Response) | Existing(id: ChatId) | Create

  /** Steps 1 to 3 of `sendMessage`, given the outcome `check` of `checkUsage(userId, "chat")`. */
  function Admit(req: SendRequest, check: Outcome, chats: map<ChatId, ChatRow>, lookupError: Option<string>): (r: Route)
    ensures !Truthy(req.userId) ==> r == Stop(Response(401, "Unauthorized"))
    ensures Truthy(req.userId) && !NonBlank(req.message) ==> r == Stop(Response(400, "Message content is required"))
    ensures Truthy(req.userId) && NonBlank(req.message) && check.Fail? ==> r == Stop(Response(429, check.message))
    ensures r.Existing? <==>
      && Truthy(req.userId) && NonBlank(req.message) && check.Pass? && Truthy(req.chatId)
      && lookupError.None? && req.chatId.value in chats && chats[req.chatId.value].userId == req.userId.value
    ensures Truthy(req.userId) && NonBlank(req.message) && check.Pass? && Truthy(req.chatId)
            && (lookupError.Some? || req.chatId.value !in chats) ==>
      r == Stop(Response(404, "Chat not found"))
    ensures r.Existing? ==> r.id == req.chatId.value
    ensures r.Create? <==> Truthy(req.userId) && NonBlank(req.message) && check.Pass? && !Truthy(req.chatId)
    ensures Truthy(req.userId) && NonBlank(req.message) && check.Pass? && Truthy(req.chatId)
            && lookupError.None? && req.chatId.value in chats && chats[req.chatId.value].userId != req.userId.value
            ==> r == Stop(Response(403, "Forbidden: Not your chat"))
  {
    if !Truthy(req.userId) then Stop(Response(401, "Unauthorized"))
    else if !NonBlank(req.message) then Stop(Response(400, "Message content is required"))
    else if check.Fail? then Stop(Response(429, check.message))
    else if !Truthy(req.chatId) then Create
    else if lookupError.Some? || req.chatId.value !in chats then Stop(Response(404, "Chat not found"))
    else if chats[req.chatId.value].userId != req.userId.value then Stop(Response(403, "Forbidden: Not your chat"))
    else Existing(req.chatId.value)
  }

  /** The admission of `sendMessage` against the store as it stands. */
  function Admission(db: Store, req: SendRequest, nowSeconds: int, faults: SendFaults): Route
    reads db`subscriptions, db`usage, db`chats
  {
    var user := if req.userId.Some? then req.userId.value else "";
    Admit(req, RateLimiter.CheckUsage(db, user, "chat", nowSeconds, faults.usage), db.chats, faults.chatLookup)
  }

  /** Whether `sendMessage` called `checkUsage`: only with a user and a non-blank message. */
  predicate Checked(req: SendRequest) {
    Truthy(req.userId) && NonBlank(req.message)
  }

  /**
   * What steps 4 to 9 of `sendMessage` do once chat `id` is known. Unless the user's message
   * cannot be stored (500, nothing written), the message is appended, the model receives the
   * chat's oldest 20 messages (the window as written), the reply (or its fallback text) is answered
   * with 200 and appended unless that insert fails, and one chat unit is committed unless the
   * commit fails, whatever the model did.
   */
  predicate Conversed(messages: seq<MessageRow>, usage: map<(UserId, Tiers.Mode), int>,
                      messages': seq<MessageRow>, usage': map<(UserId, Tiers.Mode), int>,
                      response: Response, context: seq<ChatMessage>,
                      user: UserId, id: ChatId, message: string, llm: LlmReply, faults: SendFaults)
  {
    var posted := MessageRow(id, "user", message);
    if faults.userMessageInsert then
      && response == Response(500, "Internal Server Error") && context == []
      && messages' == messages && usage' == usage
    else
      && response == Response(200, AssistantText(llm))
      && context == (if faults.history then [] else ToContext(OldestWindow(HistoryOf(messages, id) + [posted])))
      && messages' == messages + [posted]
         + (if faults.assistantInsert then [] else [MessageRow(id, "assistant", AssistantText(llm))])
      && usage' == (if faults.commit then usage else Incremented(usage, user, Tiers.Chat))
  }

  /** `log` after steps 4 to 9: the model call, then the commit, unless the user message was not stored. */
  function ConversationLog(log: seq<Effect>, user: UserId, faults: SendFaults): seq<Effect> {
    if faults.userMessageInsert then log else log + [ProviderCalled(ChatCompletion)] + [UsageCommitted(user, "chat")]
  }

  /** Steps 4 to 9 of `sendMessage`. */
  method Converse(db: Store, user: UserId, id: ChatId, message: string, llm: LlmReply, faults: SendFaults)
    returns (response: Response, context: seq<ChatMessage>)
    modifies db`messages, db`usage, db`log
    ensures Conversed(old(db.messages), old(db.usage), db.messages, db.usage, response, context, user, id, message, llm, faults)
    ensures db.log == ConversationLog(old(db.log), user, faults)
  {
    if faults.userMessageInsert {
      return Response(500, "Internal Server Error"), [];
    }
    context := PostMessage(db, id, message, faults.history);
    db.log := db.log + [ProviderCalled(ChatCompletion)];
    var assistantText := AssistantText(llm);
    StoreReply(db, id, assistantText, faults.assistantInsert);
    RecordChatUnit(db, user, faults.commit);
    response := Response(200, assistantText);
  }

  /** Steps 4 and 5 of `sendMessage`: store the user's message, then read the history back. */
  method PostMessage(db: Store, id: ChatId, message: string, historyFault: bool) returns (context: seq<ChatMessage>)
    modifies db`messages
    ensures var posted := MessageRow(id, "user", message);
      && db.messages == old(db.messages) + [posted]
      && context == if historyFault then [] else ToContext(OldestWindow(HistoryOf(old(db.messages), id) + [posted]))
  {
    var posted := MessageRow(id, "user", message);
    db.messages := db.messages + [posted];
    context := Context(db.messages, id, posted, historyFault);
  }

  /** Step 7 of `sendMessage`: store the assistant's reply; a failed insert is ignored. */
  method StoreReply(db: Store, id: ChatId, text: string, insertFault: bool)
    modifies db`messages
    ensures db.messages == old(db.messages) + (if insertFault then [] else [MessageRow(id, "assistant", text)])
  {
    if !insertFault {
      db.messages := db.messages + [MessageRow(id, "assistant", text)];
    }
  }

  /**
   * The history query run right after `posted` was stored (`history || []` when it fails),
   * mapped to model messages: the chat's earlier messages followed by `posted`, cut by the
   * window as written, so the oldest 20.
   */
  function Context(messages: seq<MessageRow>, id: ChatId, posted: MessageRow, historyFault: bool): (r: seq<ChatMessage>)
    requires messages != [] && messages[|messages| - 1] == posted && posted.chatId == id
    ensures r == if historyFault then [] else ToContext(OldestWindow(HistoryOf(messages[..|messages| - 1], id) + [posted]))
  {
    HistoryAppend(messages[..|messages| - 1], posted);
    assert messages[..|messages| - 1] + [posted] == messages;
    if historyFault then [] else ToContext(OldestWindow(HistoryOf(messages, id)))
  }

  /**
   * The history read with the corrected window: the chat's latest 20 messages, which always
   * end with the one just posted.
   */
  function CorrectedContext(messages: seq<MessageRow>, id: ChatId, posted: MessageRow, historyFault: bool): (r: seq<ChatMessage>)
    requires messages != [] && messages[|messages| - 1] == posted && posted.chatId == id
    ensures historyFault ==> r == []
    ensures !historyFault ==>
      && 1 <= |r| <= HISTORY_LIMIT
      && r[|r| - 1] == ChatMessage(RoleFor(posted.userRole), posted.content)
      && r == ToContext(LatestWindow(HistoryOf(messages[..|messages| - 1], id) + [posted]))
  {
    HistoryAppend(messages[..|messages| - 1], posted);
    assert messages[..|messages| - 1] + [posted] == messages;
    LatestWindowHoldsNewMessage(HistoryOf(messages[..|messages| - 1], id), posted);
    if historyFault then [] else ToContext(LatestWindow(HistoryOf(messages, id)))
  }

  /** Step 8 of `sendMessage`: `addUsage(userId, "chat")`, whose failure is logged and swallowed. */
  method RecordChatUnit(db: Store, user: UserId, commitError: bool)
    modifies db`usage, db`log
    ensures db.usage == if commitError then old(db.usage) else Incremented(old(db.usage), user, Tiers.Chat)
    ensures db.log == old(db.log) + [UsageCommitted(user, "chat")]
  {
    RateLimiter.ParseModeName(Tiers.Chat);
    var _ := RateLimiter.AddUsage(db, user, "chat", commitError);
  }

  /** The chat a request proceeds with, or the response refusing it. */
  datatype Opening = Refused(response: Response) | Opened(id: ChatId)

  /** Step 3 of `sendMessage` as a decision: the chat named, a new chat, or a refusal. */
  function OpeningOf(route: Route, freshId: ChatId, chats: map<ChatId, ChatRow>, chatInsert: bool): (r: Opening)
    ensures route.Stop? ==> r == Refused(route.response)
    ensures r.Opened? && route.Existing? ==> r.id == route.id && r.id in chats
    ensures r.Opened? && route.Create? ==> r.id == freshId && freshId !in chats
    ensures route.Existing? && route.id in chats ==> r == Opened(route.id)
    ensures route.Existing? && route.id !in chats ==> r == Refused(Response(404, "Chat not found"))
    ensures route.Create? ==>
      r == if chatInsert || freshId in chats then Refused(Response(500, "Internal Server Error")) else Opened(freshId)
  {
    match route
    case Stop(response) => Refused(response)
    case Existing(id) => if id in chats then Opened(id) else Refused(Response(404, "Chat not found"))
    case Create =>
      if chatInsert || freshId in chats then Refused(Response(500, "Internal Server Error")) else Opened(freshId)
  }

  /** The row a new chat gets: owner, model and title. */
  function NewChat(req: SendRequest): ChatRow
    requires req.userId.Some? && req.message.Some?
  {
    ChatRow(req.userId.value, ModelOrDefault(req.model), Title(req.message.value))
  }

  /**
   * Steps 1 to 3 of `sendMessage`: the caller, the message and the quota, then the chat
   * named (looked up and owned by the caller) or a new one. Only a new chat is written.
   */
  method OpenChat(db: Store, req: SendRequest, nowSeconds: int, freshId: ChatId, faults: SendFaults) returns (r: Opening)
    modifies db`chats, db`log
    ensures var route := old(Admission(db, req, nowSeconds, faults));
      && r == OpeningOf(route, freshId, old(db.chats), faults.chatInsert)
      && db.chats == (if route.Create? && r.Opened? then old(db.chats)[freshId := NewChat(req)] else old(db.chats))
    ensures r.Opened? ==> Checked(req)
    ensures db.log == old(db.log) + (if Checked(req) then [UsageChecked(req.userId.value, "chat")] else [])
  {
    if !Truthy(req.userId) {
      return Refused(Response(401, "Unauthorized"));
    }
    var user := req.userId.value;
    if !NonBlank(req.message) {
      return Refused(Response(400, "Message content is required"));
    }
    var check := RateLimiter.Check(db, user, "chat", nowSeconds, faults.usage);
    if check.Fail? {
      return Refused(Response(429, check.message));
    }
    if Truthy(req.chatId) {
      var id := req.chatId.value;
      if faults.chatLookup.Some? || id !in db.chats {
        return Refused(Response(404, "Chat not found"));
      }
      if db.chats[id].userId != user {
        return Refused(Response(403, "Forbidden: Not your chat"));
      }
      return Opened(id);
    }
    if faults.chatInsert || freshId in db.chats {
      return Refused(Response(500, "Internal Server Error"));
    }
    db.chats := db.chats[freshId := ChatRow(user, ModelOrDefault(req.model), Title(req.message.value))];
    r := Opened(freshId);
  }

  /**
   * `sendMessage(req, res)`. `freshId` is the id the store assigns a new chat and `llm`
   * the model's answer; it returns the response and the history sent to the model.
   * Every refusal leaves the tables as they were; the quota is checked before any write.
   */
  method SendMessage(db: Store, req: SendRequest, nowSeconds: int, freshId: ChatId, llm: LlmReply, faults: SendFaults)
    returns (response: Response, context: seq<ChatMessage>)
    modifies db`chats, db`messages, db`usage, db`log
    ensures var route := old(Admission(db, req, nowSeconds, faults));
      var opening := OpeningOf(route, freshId, old(db.chats), faults.chatInsert);
      opening.Refused? ==>
        && response == opening.response && context == []
        && db.chats == old(db.chats) && db.messages == old(db.messages) && db.usage == old(db.usage)
        && db.log == old(db.log) + (if Checked(req) then [UsageChecked(req.userId.value, "chat")] else [])
    ensures var route := old(Admission(db, req, nowSeconds, faults));
      var opening := OpeningOf(route, freshId, old(db.chats), faults.chatInsert);
      opening.Opened? ==>
        && db.chats == (if route.Create? then old(db.chats)[freshId := NewChat(req)] else old(db.chats))
        && Conversed(old(db.messages), old(db.usage), db.messages, db.usage, response, context,
                     req.userId.value, opening.id, req.message.value, llm, faults)
        && db.log == ConversationLog(old(db.log) + [UsageChecked(req.userId.value, "chat")], req.userId.value, faults)
  {
    var opening := OpenChat(db, req, nowSeconds, freshId, faults);
    if opening.Refused? {
      return opening.response, [];
    }
    response, context := Converse(db, req.userId.value, opening.id, req.message.value, llm, faults);
  }

  /**
   * What the model is sent as written: at most 20 messages; while the chat held fewer than 20
   * earlier messages, all of them followed by the one just posted; from 20 on, only the first
   * 20 earlier ones, so the message just posted is not sent.
   */
  lemma ContextWindowAsWritten(messages: seq<MessageRow>, posted: MessageRow)
    ensures var earlier := HistoryOf(messages, posted.chatId);
      var context := ToContext(OldestWindow(earlier + [posted]));
      && |context| <= HISTORY_LIMIT
      && (|context| == |earlier| + 1 <==> |earlier| < HISTORY_LIMIT)
      && (|earlier| < HISTORY_LIMIT ==>
            context == ToContext(earlier) + [ChatMessage(RoleFor(posted.userRole), posted.content)])
      && (|earlier| >= HISTORY_LIMIT ==> context == ToContext(earlier[..HISTORY_LIMIT]))
  {
    var earlier := HistoryOf(messages, posted.chatId);
    var context := ToContext(OldestWindow(earlier + [posted]));
    if |earlier| < HISTORY_LIMIT {
      var expected := ToContext(earlier) + [ChatMessage(RoleFor(posted.userRole), posted.content)];
      assert |context| == |expected|;
      forall i | 0 <= i < |context|
        ensures context[i] == expected[i]
      {
        if i < |earlier| {
          assert (earlier + [posted])[i] == earlier[i];
        }
      }
    } else {
      assert (earlier + [posted])[..HISTORY_LIMIT] == earlier[..HISTORY_LIMIT];
    }
  }

  /** One message as `getChat` selects it: the stored role and the content. */
  datatype StoredMessage = StoredMessage(userRole: string, content: string)

  /** The body of a found chat: its title and its messages. */
  datatype ChatView = ChatView(title: string, messages: seq<StoredMessage>)

  /** What `getChat` answers: the chat with 200, or an error response. */
  datatype ChatLookup = Shown(view: ChatView) | NotShown(response: Response)

  /** The selected columns of each history row, in order. */
  function Stored(history: seq<MessageRow>): (r: seq<StoredMessage>)
    ensures |r| == |history|
  {
    seq(|history|, i requires 0 <= i < |history| => StoredMessage(history[i].userRole, history[i].content))
  }

  /** `getChat(req, res)`: the caller's own chat with its messages in order; `error` is a query error. */
  function GetChat(chats: map<ChatId, ChatRow>, messages: seq<MessageRow>, userId: Option<UserId>, chatId: ChatId,
                   error: Option<string>): (r: ChatLookup)
    ensures userId.None? ==> r == NotShown(Response(500, "Server error"))
    ensures userId.Some? && error.Some? ==> r == NotShown(Response(500, "Database error"))
    ensures userId.Some? && error.None? && !(chatId in chats && chats[chatId].userId == userId.value) ==>
      r == NotShown(Response(404, "Chat not found"))
    ensures r.Shown? <==> userId.Some? && error.None? && chatId in chats && chats[chatId].userId == userId.value
    ensures r.Shown? ==> var history := HistoryOf(messages, chatId);
      && r.view.title == chats[chatId].title
      && |r.view.messages| == |history|
      && forall i :: 0 <= i < |history| ==>
           r.view.messages[i] == StoredMessage(history[i].userRole, history[i].content)
  {
    if userId.None? then NotShown(Response(500, "Server error"))
    else if error.Some? then NotShown(Response(500, "Database error"))
    else if chatId !in chats || chats[chatId].userId != userId.value then NotShown(Response(404, "Chat not found"))
    else Shown(ChatView(chats[chatId].title, Stored(HistoryOf(messages, chatId))))
  }

  /** `parseInt(req.query.page) || 1`: `None` stands for `NaN`; `NaN` and 0 mean page 1. */
  function PageNumber(parsed: Option<int>): (p: int)
    ensures p != 0
    ensures parsed.None? || parsed.value == 0 ==> p == 1
    ensures parsed.Some? && parsed.value != 0 ==> p == parsed.value
  {
    if parsed.Some? && parsed.value != 0 then parsed.value else 1
  }

  /** `.range(from, from + limit - 1)` for a page, both ends inclusive. */
  datatype RowRange = RowRange(first: int, last: int)

  function PageRange(page: int): (r: RowRange)
    ensures r.last - r.first + 1 == PAGE_SIZE
    ensures page == 1 ==> r == RowRange(0, 19)
  {
    var from := (page - 1) * PAGE_SIZE;
    RowRange(from, from + PAGE_SIZE - 1)
  }

  /** Consecutive pages are adjacent, so pages never overlap and leave no gap. */
  lemma PagesAdjacent(page: int)
    ensures PageRange(page + 1).first == PageRange(page).last + 1
  {
  }

  /** Every row position belongs to exactly one positive page: `i / 20 + 1`. */
  lemma RowOnExactlyOnePage(i: nat, page: int)
    ensures PageRange(i / 20 + 1).first <= i <= PageRange(i / 20 + 1).last
    ensures PageRange(page).first <= i <= PageRange(page).last ==> page == i / 20 + 1
  {
    var q := i / 20;
    assert q * 20 <= i < q * 20 + 20;
    if PageRange(page).first <= i <= PageRange(page).last {
      assert (page - 1) * 20 <= i < (page - 1) * 20 + 20;
    }
  }

  /**
   * `.eq("user_id", user)` over `newestFirst`, the store's `created_at`-descending order of
   * all chat ids: the user's chats, newest first.
   */
  function ChatsOf(newestFirst: seq<ChatId>, chats: map<ChatId, ChatRow>, user: UserId): (r: seq<ChatId>)
    ensures |r| <= |newestFirst|
    ensures forall k :: 0 <= k < |r| ==> r[k] in newestFirst && r[k] in chats && chats[r[k]].userId == user
  {
    if newestFirst == [] then []
    else (if newestFirst[0] in chats && chats[newestFirst[0]].userId == user then [newestFirst[0]] else [])
         + ChatsOf(newestFirst[1..], chats, user)
  }

  /** Every chat of the user's that the store orders is listed. */
  lemma {:induction false} ChatsOfComplete(newestFirst: seq<ChatId>, chats: map<ChatId, ChatRow>, user: UserId, id: ChatId)
    requires id in newestFirst && id in chats && chats[id].userId == user
    ensures id in ChatsOf(newestFirst, chats, user)
    decreases |newestFirst|
  {
    if newestFirst[0] != id {
      ChatsOfComplete(newestFirst[1..], chats, user, id);
    }
  }

  /** What `listChats` answers: a page of chats with its number, or a 500. */
  datatype ChatList = Listed(chats: seq<ChatId>, page: int) | ListFailed(response: Response)

  /**
   * `listChats`: the caller's chats, newest first, cut to the page's range; `error` is a query
   * error. A missing user and a failed query both answer 500.
   */
  function ListChats(newestFirst: seq<ChatId>, chats: map<ChatId, ChatRow>, userId: Option<UserId>,
                     parsedPage: Option<int>, error: bool): (r: ChatList)
    ensures userId.None? || error <==> r == ListFailed(Response(500, "Could not fetch chats"))
    ensures r.Listed? ==> r.page == PageNumber(parsedPage)
    ensures r.Listed? ==> var owned := ChatsOf(newestFirst, chats, userId.value);
      var range := PageRange(PageNumber(parsedPage));
      && |r.chats| <= PAGE_SIZE
      && (forall k :: 0 <= k < |r.chats| ==> 0 <= range.first + k < |owned| && r.chats[k] == owned[range.first + k])
      && (0 <= range.first <= |owned| ==>
            |r.chats| == if |owned| - range.first < PAGE_SIZE then |owned| - range.first else PAGE_SIZE)
      && (range.first < 0 || range.first > |owned| ==> r.chats == [])
  {
    if userId.None? || error then ListFailed(Response(500, "Could not fetch chats"))
    else
      var owned := ChatsOf(newestFirst, chats, userId.value);
      var page := PageNumber(parsedPage);
      var range := PageRange(page);
      var lo := if range.first < 0 then 0 else if range.first > |owned| then |owned| else range.first;
      var hi := if range.last + 1 > |owned| then |owned| else if range.last + 1 < lo then lo else range.last + 1;
      if range.first < 0 then Listed([], page) else Listed(owned[lo..hi], page)
  }

  /** `update({ title }).eq("id", chatId).eq("user_id", userId)`. */
  function Renamed(chats: map<ChatId, ChatRow>, user: UserId, chatId: ChatId, title: string): (r: map<ChatId, ChatRow>)
    ensures r.Keys == chats.Keys
    ensures forall id :: id in chats && (id != chatId || chats[id].userId != user) ==> r[id] == chats[id]
    ensures chatId in chats && chats[chatId].userId == user ==> r[chatId] == chats[chatId].(title := title)
  {
    if chatId in chats && chats[chatId].userId == user then chats[chatId := chats[chatId].(title := title)] else chats
  }

  /** `delete().eq("id", chatId).eq("user_id", userId)`. */
  function Deleted(chats: map<ChatId, ChatRow>, user: UserId, chatId: ChatId): (r: map<ChatId, ChatRow>)
    ensures forall id :: id in r <==> id in chats && !(id == chatId && chats[id].userId == user)
    ensures forall id :: id in r ==> r[id] == chats[id]
  {
    if chatId in chats && chats[chatId].userId == user then chats - {chatId} else chats
  }

  /** Another user's chat is out of reach: renaming or deleting it changes nothing. */
  lemma ForeignChatUntouched(chats: map<ChatId, ChatRow>, user: UserId, chatId: ChatId, title: string)
    requires chatId !in chats || chats[chatId].userId != user
    ensures Renamed(chats, user, chatId, title) == chats
    ensures Deleted(chats, user, chatId) == chats
  {
  }

  /** `renameChat(req, res)`: the update matching no row still reports success. */
  method RenameChat(db: Store, userId: Option<UserId>, chatId: ChatId, title: string, error: bool) returns (response: Response)
    modifies db`chats
    ensures userId.None? ==> response == Response(500, "Server error") && db.chats == old(db.chats)
    ensures userId.Some? && error ==> response == Response(400, "Update failed") && db.chats == old(db.chats)
    ensures userId.Some? && !error ==>
      response == Response(200, "Success") && db.chats == Renamed(old(db.chats), userId.value, chatId, title)
  {
    if userId.None? {
      return Response(500, "Server error");
    }
    if error {
      return Response(400, "Update failed");
    }
    db.chats := Renamed(db.chats, userId.value, chatId, title);
    response := Response(200, "Success");
  }

  /** `deleteChat(req, res)`. */
  method DeleteChat(db: Store, userId: Option<UserId>, chatId: ChatId, error: bool) returns (response: Response)
    modifies db`chats
    ensures userId.None? ==> response == Response(500, "Server error") && db.chats == old(db.chats)
    ensures userId.Some? && error ==> response == Response(400, "Delete failed") && db.chats == old(db.chats)
    ensures userId.Some? && !error ==>
      response == Response(200, "Deleted") && db.chats == Deleted(old(db.chats), userId.value, chatId)
  {
    if userId.None? {
      return Response(500, "Server error");
    }
    if error {
      return Response(400, "Delete failed");
    }
    db.chats := Deleted(db.chats, userId.value, chatId);
    response := Response(200, "Deleted");
  }
}
