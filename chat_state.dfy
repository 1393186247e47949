/**
  The conversation state manager's state and its transitions, as functions from
  the state before an operation to the state after it. The provider class in
  module ChatContext performs the same steps on its fields and promises these
  results; the lemmas here state what the operations guarantee.
 */
module ChatState {
  import opened Wrappers
  import opened ChatTypes
  import opened ChatUtils
  import opened GeminiApi
  import JsStrings

  /** The four state cells of the provider. */
  datatype Snapshot = Snapshot(chats: seq<Chat>, currentChat: Option<Chat>, apiKey: string, isLoading: bool)

  /** The current chat, when there is one, is one of the chats. */
  predicate CurrentInChats(s: Snapshot) {
    s.currentChat.Some? ==> s.currentChat.value in s.chats
  }

  // ---------------------------------------------------------------------------
  // List helpers: `findIndex`, `find`, `filter`, the upsert by id, the sort on load

  /** `chats.findIndex(chat => chat.id === id)`, with None for -1. */
  function FindChatIndex(chats: seq<Chat>, id: string): (r: Option<nat>)
    ensures r.None? <==> id !in Ids(chats)
    ensures r.Some? ==> r.value < |chats| && chats[r.value].id == id
    ensures r.Some? ==> forall j :: 0 <= j < r.value ==> chats[j].id != id
  {
    if |chats| == 0 then None
    else if chats[0].id == id then Some(0)
    else match FindChatIndex(chats[1..], id)
      case None => None
      case Some(k) => Some(k + 1)
  }

  /** `chats.find(chat => chat.id === id)`. */
  function FindChat(chats: seq<Chat>, id: string): (r: Option<Chat>)
    ensures r.None? <==> id !in Ids(chats)
    ensures r.Some? ==> r.value in chats && r.value.id == id
    ensures r.Some? ==> exists i :: 0 <= i < |chats| && chats[i] == r.value
                                    && forall j :: 0 <= j < i ==> chats[j].id != id
  {
    match FindChatIndex(chats, id)
    case Some(i) => Some(chats[i])
    case None => None
  }

  /** `chats.filter(chat => chat.id !== id)`. */
  function RemoveChat(chats: seq<Chat>, id: string): (r: seq<Chat>)
    ensures forall c :: c in r <==> c in chats && c.id != id
    ensures id !in Ids(r)
    ensures |r| <= |chats|
    ensures id !in Ids(chats) ==> r == chats
  {
    if |chats| == 0 then []
    else if chats[0].id == id then RemoveChat(chats[1..], id)
    else [chats[0]] + RemoveChat(chats[1..], id)
  }

  /** Removing a chat keeps the rest in order: filtering distributes over concatenation. */
  lemma {:induction false} RemoveChatAppend(a: seq<Chat>, b: seq<Chat>, id: string)
    ensures RemoveChat(a + b, id) == RemoveChat(a, id) + RemoveChat(b, id)
  {
    if |a| > 0 {
      assert (a + b)[1..] == a[1..] + b;
      RemoveChatAppend(a[1..], b, id);
    } else {
      assert a + b == b;
    }
  }

  /**
    The upsert the send operations apply to the chat list: a chat whose id is
    present replaces the first chat with that id, in place; otherwise it goes first.
   */
  function Upsert(chats: seq<Chat>, c: Chat): (r: seq<Chat>)
    ensures FindChatIndex(chats, c.id).Some? ==>
              var i := FindChatIndex(chats, c.id).value;
              |r| == |chats| && r[i] == c && forall j :: 0 <= j < |r| && j != i ==> r[j] == chats[j]
    ensures FindChatIndex(chats, c.id).None? ==> r == [c] + chats
    ensures c in r
  {
    match FindChatIndex(chats, c.id)
    case Some(i) => chats[i := c]
    case None => [c] + chats
  }

  /** The upsert neither loses an id nor creates a duplicate one. */
  lemma UpsertIds(chats: seq<Chat>, c: Chat)
    ensures Ids(Upsert(chats, c)) == Ids(chats) + {c.id}
    ensures DistinctIds(chats) ==> DistinctIds(Upsert(chats, c))
  {
    var r := Upsert(chats, c);
    match FindChatIndex(chats, c.id)
    case Some(i) =>
      forall x | x in Ids(r) ensures x in Ids(chats) + {c.id} {
        var k :| 0 <= k < |r| && r[k].id == x;
      }
      forall x | x in Ids(chats) + {c.id} ensures x in Ids(r) {
        if x == c.id {
          assert r[i].id == x;
        } else {
          var k :| 0 <= k < |chats| && chats[k].id == x;
          assert r[k].id == x;
        }
      }
    case None =>
      forall x | x in Ids(r) ensures x in Ids(chats) + {c.id} {
        var k :| 0 <= k < |r| && r[k].id == x;
        if k > 0 { assert chats[k - 1].id == x; }
      }
      forall x | x in Ids(chats) + {c.id} ensures x in Ids(r) {
        if x == c.id {
          assert r[0].id == x;
        } else {
          var k :| 0 <= k < |chats| && chats[k].id == x;
          assert r[k + 1].id == x;
        }
      }
      if DistinctIds(chats) {
        forall i, j | 0 <= i < j < |r| ensures r[i].id != r[j].id {
          if i == 0 {
            assert r[j].id == chats[j - 1].id;
            assert chats[j - 1].id in Ids(chats);
          } else {
            assert r[i] == chats[i - 1] && r[j] == chats[j - 1];
          }
        }
      }
  }

  /**
    The chat the load picks: the stable descending sort by `updatedAt` puts first
    the earliest of the chats with the greatest `updatedAt`.
   */
  function MostRecentIndex(chats: seq<Chat>): (r: nat)
    requires |chats| > 0
    ensures r < |chats|
    ensures forall j :: 0 <= j < |chats| ==> chats[j].updatedAt <= chats[r].updatedAt
    ensures forall j :: 0 <= j < r ==> chats[j].updatedAt < chats[r].updatedAt
  {
    if |chats| == 1 then 0
    else
      var k := 1 + MostRecentIndex(chats[1..]);
      if chats[0].updatedAt >= chats[k].updatedAt then 0 else k
  }

  /** Those two properties pin the chosen index down. */
  lemma MostRecentIndexUnique(chats: seq<Chat>, i: nat)
    requires i < |chats|
    requires forall j :: 0 <= j < |chats| ==> chats[j].updatedAt <= chats[i].updatedAt
    requires forall j :: 0 <= j < i ==> chats[j].updatedAt < chats[i].updatedAt
    ensures MostRecentIndex(chats) == i
  {
  }

  /** `{...chat, messages: [...chat.messages, m], updatedAt: now}` */
  function AppendMessage(chat: Chat, m: Message, now: int): (r: Chat)
    ensures r.messages == chat.messages + [m] && r.updatedAt == now
    ensures r.id == chat.id && r.title == chat.title && r.createdAt == chat.createdAt
  {
    chat.(messages := chat.messages + [m], updatedAt := now)
  }

  // ---------------------------------------------------------------------------
  // Loading and the API key

  /** The key in use: the build-time key, else a non-empty stored key, else "". */
  function ResolveApiKey(envKey: string, storedKey: Option<string>): (k: string)
    ensures envKey != "" ==> k == envKey
    ensures envKey == "" && storedKey.Some? && storedKey.value != "" ==> k == storedKey.value
    ensures envKey == "" && (storedKey.None? || storedKey.value == "") ==> k == ""
  {
    if envKey == "" && storedKey.Some? && storedKey.value != "" then storedKey.value else envKey
  }

  /** Whether a key is written to storage: never when it is the build-time key itself. */
  predicate ShouldPersistApiKey(key: string, envKey: string)
    ensures !ShouldPersistApiKey(key, envKey) <==> envKey != "" && key == envKey
  {
    key != envKey || envKey == ""
  }

  /**
    The state after mount: the stored chats (None when absent or unparsable), the
    most recently updated of them as current, and the resolved key.
   */
  function LoadStep(envKey: string, stored: Option<seq<Chat>>, storedKey: Option<string>): (r: Snapshot)
    ensures CurrentInChats(r) && !r.isLoading
    ensures r.chats == (if stored.Some? then stored.value else [])
    ensures r.currentChat.None? <==> r.chats == []
    ensures r.currentChat.Some? ==>
              forall c :: c in r.chats ==> c.updatedAt <= r.currentChat.value.updatedAt
    ensures r.currentChat.Some? ==>
              exists i :: 0 <= i < |r.chats| && r.chats[i] == r.currentChat.value
                          && forall j :: 0 <= j < i ==> r.chats[j].updatedAt < r.chats[i].updatedAt
    ensures r.apiKey == ResolveApiKey(envKey, storedKey)
  {
    var chats := if stored.Some? then stored.value else [];
    var current := if |chats| > 0 then Some(chats[MostRecentIndex(chats)]) else None;
    Snapshot(chats, current, ResolveApiKey(envKey, storedKey), false)
  }

  // ---------------------------------------------------------------------------
  // The chat operations

  /** `handleCreateNewChat`: a new empty chat goes first and becomes current. */
  function CreateChatStep(s: Snapshot, id: string, now: int): (r: Snapshot)
    ensures |r.chats| == |s.chats| + 1 && r.chats[1..] == s.chats
    ensures r.chats[0] == CreateNewChat(id, now) && r.currentChat == Some(r.chats[0])
    ensures r.apiKey == s.apiKey && r.isLoading == s.isLoading
  {
    var c := CreateNewChat(id, now);
    s.(chats := [c] + s.chats, currentChat := Some(c))
  }

  /** `selectChat`: the first chat with the id becomes current; an unknown id changes nothing. */
  function SelectStep(s: Snapshot, id: string): (r: Snapshot)
    ensures r.chats == s.chats && r.apiKey == s.apiKey && r.isLoading == s.isLoading
    ensures id in Ids(s.chats) ==> r.currentChat.Some? && r.currentChat.value in s.chats && r.currentChat.value.id == id
    ensures id in Ids(s.chats) ==> r.currentChat == Some(s.chats[FindChatIndex(s.chats, id).value])
    ensures id !in Ids(s.chats) ==> r == s
  {
    match FindChat(s.chats, id)
    case Some(c) => s.(currentChat := Some(c))
    case None => s
  }

  /**
    `deleteChat`: every chat with the id is removed; if the current chat had it,
    the first remaining chat (in list order) becomes current, or none.
   */
  function DeleteStep(s: Snapshot, id: string): (r: Snapshot)
    ensures r.chats == RemoveChat(s.chats, id)
    ensures s.currentChat.Some? && s.currentChat.value.id == id ==>
              r.currentChat == if r.chats == [] then None else Some(r.chats[0])
    ensures s.currentChat.None? || s.currentChat.value.id != id ==> r.currentChat == s.currentChat
    ensures r.apiKey == s.apiKey && r.isLoading == s.isLoading
  {
    var remaining := RemoveChat(s.chats, id);
    var current :=
      if s.currentChat.Some? && s.currentChat.value.id == id then
        (if |remaining| > 0 then Some(remaining[0]) else None)
      else s.currentChat;
    s.(chats := remaining, currentChat := current)
  }

  /** `clearChats`. */
  function ClearStep(s: Snapshot): (r: Snapshot)
    ensures r.chats == [] && r.currentChat.None?
    ensures r.apiKey == s.apiKey && r.isLoading == s.isLoading
  {
    s.(chats := [], currentChat := None)
  }

  /** `setApiKey`. */
  function SetApiKeyStep(s: Snapshot, key: string): (r: Snapshot)
    ensures r.apiKey == key && r.chats == s.chats && r.currentChat == s.currentChat
    ensures r.isLoading == s.isLoading
  {
    s.(apiKey := key)
  }

  // ---------------------------------------------------------------------------
  // Sending

  /** The chat a send appends to: the current one, or a second new chat when there is none. */
  function TurnBase(s: Snapshot, msgChatId: string, sentAt: int): Chat {
    if s.currentChat.Some? then s.currentChat.value else CreateNewChat(msgChatId, sentAt)
  }

  /**
    One send after the key check, shared by both send operations: with no current
    chat, `handleCreateNewChat` runs (new chat `newChatId`) and a second new chat
    (`msgChatId`) is built to hold the message; the user message is appended and
    the chat upserted; then the reply, if any, is appended, the title derived and
    the chat upserted again; the loading flag ends cleared.
   */
  function TurnStep(s: Snapshot, userMessage: Message, newChatId: string, msgChatId: string,
                    sentAt: int, reply: Result<string, ApiError>, aiMsgId: string, repliedAt: int)
    : (r: Snapshot)
    ensures r.apiKey == s.apiKey && !r.isLoading
    ensures r.currentChat.Some? && r.currentChat.value in r.chats
    ensures r.currentChat.value.id == TurnBase(s, msgChatId, sentAt).id
    ensures reply.Failure? ==>
              r.currentChat.value == AppendMessage(TurnBase(s, msgChatId, sentAt), userMessage, sentAt)
    ensures reply.Success? ==>
              r.currentChat.value == ReplyChat(AppendMessage(TurnBase(s, msgChatId, sentAt), userMessage, sentAt),
                                               reply.value, aiMsgId, repliedAt)
  {
    var s1 := if s.currentChat.None? then CreateChatStep(s, newChatId, sentAt) else s;
    var updated := OptimisticChat(s, userMessage, msgChatId, sentAt);
    var s2 := s1.(currentChat := Some(updated), chats := Upsert(s1.chats, updated), isLoading := true);
    ConfirmStep(s2, updated, reply, aiMsgId, repliedAt).(isLoading := false)
  }

  /** The chat of the optimistic update: the current chat plus the message, or a new chat holding only it. */
  function OptimisticChat(s: Snapshot, userMessage: Message, msgChatId: string, sentAt: int): (c: Chat)
    ensures c == AppendMessage(TurnBase(s, msgChatId, sentAt), userMessage, sentAt)
  {
    if s.currentChat.Some? then AppendMessage(s.currentChat.value, userMessage, sentAt)
    else
      var empty := CreateNewChat(msgChatId, sentAt);
      assert empty.messages + [userMessage] == [userMessage];
      empty.(messages := [userMessage])
  }

  /** The chat after a reply: the "ai" message appended, then the title derived. */
  function ReplyChat(updated: Chat, text: string, aiMsgId: string, repliedAt: int): (c: Chat)
    ensures c.id == updated.id && c.messages == updated.messages + [CreateMessage(aiMsgId, text, Ai, repliedAt)]
    ensures c.updatedAt == repliedAt && c.createdAt == updated.createdAt
    ensures updated.title != NewChatTitle ==> c.title == updated.title
    ensures updated.title == NewChatTitle ==>
              c.title == if FirstUserIndex(c.messages).Some?
                         then TitleFromContent(c.messages[FirstUserIndex(c.messages).value].content)
                         else NewChatTitle
  {
    UpdateChatTitle(AppendMessage(updated, CreateMessage(aiMsgId, text, Ai, repliedAt), repliedAt))
  }

  /** The confirmed update of a send: on a reply the replied chat is upserted and current; a failure changes nothing. */
  function ConfirmStep(s: Snapshot, updated: Chat, reply: Result<string, ApiError>, aiMsgId: string,
                       repliedAt: int): (r: Snapshot)
    ensures r.apiKey == s.apiKey && r.isLoading == s.isLoading
    ensures reply.Failure? ==> r == s
    ensures reply.Success? ==>
              && r.currentChat == Some(ReplyChat(updated, reply.value, aiMsgId, repliedAt))
              && r.currentChat.value in r.chats
              && Ids(r.chats) == Ids(s.chats) + {updated.id}
  {
    match reply
    case Success(text) =>
      var titled := ReplyChat(updated, text, aiMsgId, repliedAt);
      UpsertIds(s.chats, titled);
      s.(currentChat := Some(titled), chats := Upsert(s.chats, titled))
    case Failure(_) => s
  }

  /** `sendMessage`: nothing at all happens without a key. */
  function SendMessageStep(s: Snapshot, content: string, newChatId: string, msgChatId: string,
                           userMsgId: string, aiMsgId: string, sentAt: int, repliedAt: int,
                           server: Server): (r: Snapshot)
    ensures s.apiKey == "" ==> r == s
    ensures s.apiKey != "" ==> !r.isLoading && r.currentChat.Some? && r.currentChat.value in r.chats
  {
    if s.apiKey == "" then s
    else
      var userMessage := CreateMessage(userMsgId, content, User, sentAt);
      var reply := CallGeminiApi(content, s.apiKey, server);
      TurnStep(s, userMessage, newChatId, msgChatId, sentAt, reply, aiMsgId, repliedAt)
  }

  const ImagePrompt: string := "Analyze this image and describe what you see in detail."
  const PdfPrompt: string := "Analyze the content of this PDF and provide a detailed summary."

  /** A file is an image exactly when its MIME type starts with "image/". */
  function FileKindOf(mimeType: string): (k: FileKind)
    ensures k == Image <==> JsStrings.StartsWith(mimeType, "image/")
  {
    if JsStrings.StartsWith(mimeType, "image/") then Image else Pdf
  }

  /** The prompt sent with a file: the description, else a kind-specific default. */
  function FilePrompt(description: string, kind: FileKind): (p: string)
    ensures description != "" ==> p == description
    ensures description == "" ==> p == (if kind == Image then ImagePrompt else PdfPrompt)
    ensures p != ""
  {
    if description != "" then description
    else if kind == Image then ImagePrompt else PdfPrompt
  }

  /** The file message a send builds (the same default caption rule is applied twice in the source). */
  function FileMessageFor(file: File, description: string, fileMsgId: string, fileUrl: string,
                          sentAt: int): (m: Message)
    ensures m.FileMessage? && m.role == User && m.fileName == file.name && m.fileUrl == fileUrl
    ensures m.fileType == FileKindOf(file.mimeType)
    ensures m.content == if description != "" then description
                         else UploadCaption(FileKindOf(file.mimeType), file.name)
  {
    var kind := FileKindOf(file.mimeType);
    var content := if description != "" then description else UploadCaption(kind, file.name);
    CreateFileMessage(fileMsgId, fileUrl, kind, file.name, content, sentAt)
  }

  /** `sendFileMessage`: as `sendMessage`, with a file message and the file request. */
  function SendFileMessageStep(s: Snapshot, file: File, description: string, newChatId: string,
                               msgChatId: string, fileMsgId: string, fileUrl: string, aiMsgId: string,
                               sentAt: int, repliedAt: int, server: Server): (r: Snapshot)
    ensures s.apiKey == "" ==> r == s
    ensures s.apiKey != "" ==> !r.isLoading && r.currentChat.Some? && r.currentChat.value in r.chats
  {
    if s.apiKey == "" then s
    else
      var kind := FileKindOf(file.mimeType);
      var fileMessage := FileMessageFor(file, description, fileMsgId, fileUrl, sentAt);
      var reply := CallGeminiApiWithFile(FilePrompt(description, kind), s.apiKey, file.base64,
                                         kind, file.mimeType, server);
      TurnStep(s, fileMessage, newChatId, msgChatId, sentAt, reply, aiMsgId, repliedAt)
  }

  // ---------------------------------------------------------------------------
  // What the operations guarantee

  /** The two title rules of the client, in the title deriver and in the API client, agree. */
  lemma TitleRulesAgree(content: string)
    ensures GenerateChatTitle(content) == TitleFromContent(content)
  {
  }

  /** Every operation other than a send keeps the current chat among the chats. */
  lemma OperationsKeepCurrentInChats(s: Snapshot, id: string, now: int, key: string)
    requires CurrentInChats(s)
    ensures CurrentInChats(CreateChatStep(s, id, now))
    ensures CurrentInChats(SelectStep(s, id))
    ensures CurrentInChats(DeleteStep(s, id))
    ensures CurrentInChats(ClearStep(s))
    ensures CurrentInChats(SetApiKeyStep(s, key))
  {
  }

  /**
    A send with no current chat leaves two new chats in front of the old ones: the
    one holding the message, which is current, then the empty chat that
    `handleCreateNewChat` made.
   */
  lemma TurnWithoutCurrentChat(s: Snapshot, userMessage: Message, newChatId: string, msgChatId: string,
                               sentAt: int, reply: Result<string, ApiError>, aiMsgId: string, repliedAt: int)
    requires s.currentChat.None?
    requires newChatId != msgChatId && newChatId !in Ids(s.chats) && msgChatId !in Ids(s.chats)
    ensures var r := TurnStep(s, userMessage, newChatId, msgChatId, sentAt, reply, aiMsgId, repliedAt);
            && |r.chats| == |s.chats| + 2
            && r.currentChat == Some(r.chats[0])
            && r.chats[0].id == msgChatId
            && r.chats[1] == CreateNewChat(newChatId, sentAt)
            && r.chats[2..] == s.chats
  {
    var empty := CreateNewChat(newChatId, sentAt);
    var updated := CreateNewChat(msgChatId, sentAt).(messages := [userMessage]);
    var chats1 := [empty] + s.chats;
    assert msgChatId !in Ids(chats1) by {
      forall k | 0 <= k < |chats1| ensures chats1[k].id != msgChatId {
        if k > 0 { assert chats1[k] == s.chats[k - 1]; }
      }
    }
    var chats2 := Upsert(chats1, updated);
    assert chats2 == [updated, empty] + s.chats;
    assert FindChatIndex(chats2, msgChatId) == Some(0);
  }

  /** A send to the current chat replaces that chat where it stands and touches no other. */
  lemma TurnOnCurrentChat(s: Snapshot, userMessage: Message, newChatId: string, msgChatId: string,
                          sentAt: int, reply: Result<string, ApiError>, aiMsgId: string, repliedAt: int, i: nat)
    requires s.currentChat.Some? && FindChatIndex(s.chats, s.currentChat.value.id) == Some(i)
    ensures var r := TurnStep(s, userMessage, newChatId, msgChatId, sentAt, reply, aiMsgId, repliedAt);
            |r.chats| == |s.chats| && r.chats == s.chats[i := r.currentChat.value]
  {
    var updated := OptimisticChat(s, userMessage, msgChatId, sentAt);
    UpsertKeepsIndex(s.chats, updated, i);
    var s2 := s.(currentChat := Some(updated), chats := Upsert(s.chats, updated), isLoading := true);
    ConfirmKeepsIndex(s2, updated, reply, aiMsgId, repliedAt, i);
    TurnStepOnCurrent(s, userMessage, newChatId, msgChatId, sentAt, reply, aiMsgId, repliedAt);
  }

  /** With a chat open, a turn is the optimistic upsert followed by the confirmation. */
  lemma TurnStepOnCurrent(s: Snapshot, userMessage: Message, newChatId: string, msgChatId: string,
                          sentAt: int, reply: Result<string, ApiError>, aiMsgId: string, repliedAt: int)
    requires s.currentChat.Some?
    ensures var updated := OptimisticChat(s, userMessage, msgChatId, sentAt);
            var s2 := s.(currentChat := Some(updated), chats := Upsert(s.chats, updated), isLoading := true);
            TurnStep(s, userMessage, newChatId, msgChatId, sentAt, reply, aiMsgId, repliedAt)
              == ConfirmStep(s2, updated, reply, aiMsgId, repliedAt).(isLoading := false)
  {
  }

  /** The confirmed update replaces, at its index, the chat the optimistic update put there. */
  lemma ConfirmKeepsIndex(s: Snapshot, updated: Chat, reply: Result<string, ApiError>, aiMsgId: string,
                          repliedAt: int, i: nat)
    requires FindChatIndex(s.chats, updated.id) == Some(i) && s.chats[i] == updated
    requires s.currentChat == Some(updated)
    ensures var r := ConfirmStep(s, updated, reply, aiMsgId, repliedAt);
            r.currentChat.Some? && r.chats == s.chats[i := r.currentChat.value]
  {
    if reply.Success? {
      UpsertKeepsIndex(s.chats, ReplyChat(updated, reply.value, aiMsgId, repliedAt), i);
    } else {
      assert s.chats[i := updated] == s.chats;
    }
  }

  /** Upserting a chat whose id sits at index `i` keeps it at `i`, replaced. */
  lemma UpsertKeepsIndex(chats: seq<Chat>, c: Chat, i: nat)
    requires FindChatIndex(chats, c.id) == Some(i)
    ensures Upsert(chats, c) == chats[i := c]
    ensures FindChatIndex(Upsert(chats, c), c.id) == Some(i)
  {
    var r := Upsert(chats, c);
    assert forall j :: 0 <= j < i ==> r[j] == chats[j];
    FindChatIndexFirst(r, c.id, i);
  }

  /** An index holding the id, with no earlier one holding it, is the one `findIndex` returns. */
  lemma FindChatIndexFirst(chats: seq<Chat>, id: string, i: nat)
    requires i < |chats| && chats[i].id == id
    requires forall j :: 0 <= j < i ==> chats[j].id != id
    ensures FindChatIndex(chats, id) == Some(i)
  {
    assert id in Ids(chats);
    var r := FindChatIndex(chats, id).value;
    assert !(r < i) && !(i < r);
  }

  /** With fresh ids for the chats a send may create, chat ids stay distinct. */
  lemma TurnKeepsDistinctIds(s: Snapshot, userMessage: Message, newChatId: string, msgChatId: string,
                             sentAt: int, reply: Result<string, ApiError>, aiMsgId: string, repliedAt: int)
    requires DistinctIds(s.chats) && CurrentInChats(s)
    requires s.currentChat.None? ==>
               newChatId != msgChatId && newChatId !in Ids(s.chats) && msgChatId !in Ids(s.chats)
    ensures DistinctIds(TurnStep(s, userMessage, newChatId, msgChatId, sentAt, reply, aiMsgId, repliedAt).chats)
  {
    var s1 := if s.currentChat.None? then CreateChatStep(s, newChatId, sentAt) else s;
    if s.currentChat.None? {
      CreateKeepsDistinctIds(s, newChatId, sentAt);
    }
    var updated :=
      if s.currentChat.Some? then AppendMessage(s.currentChat.value, userMessage, sentAt)
      else CreateNewChat(msgChatId, sentAt).(messages := [userMessage]);
    UpsertIds(s1.chats, updated);
    var chats2 := Upsert(s1.chats, updated);
    match reply
    case Success(text) =>
      var ai := CreateMessage(aiMsgId, text, Ai, repliedAt);
      UpsertIds(chats2, UpdateChatTitle(AppendMessage(updated, ai, repliedAt)));
    case Failure(_) =>
  }

  /** A new chat with a fresh id keeps chat ids distinct. */
  lemma CreateKeepsDistinctIds(s: Snapshot, id: string, now: int)
    requires DistinctIds(s.chats) && id !in Ids(s.chats)
    ensures DistinctIds(CreateChatStep(s, id, now).chats)
  {
    var r := CreateChatStep(s, id, now).chats;
    forall i, j | 0 <= i < j < |r| ensures r[i].id != r[j].id {
      assert r[j] == s.chats[j - 1];
      if i == 0 {
        assert s.chats[j - 1].id in Ids(s.chats);
      } else {
        assert r[i] == s.chats[i - 1];
      }
    }
  }

  /**
    What one send does to the chat it targets: on a reply, exactly the user
    message then the "ai" message holding the reply are appended; on a failure,
    only the user message. Either way loading ends cleared.
   */
  lemma SendMessageAppends(s: Snapshot, content: string, newChatId: string, msgChatId: string,
                           userMsgId: string, aiMsgId: string, sentAt: int, repliedAt: int, server: Server)
    requires s.apiKey != ""
    ensures var r := SendMessageStep(s, content, newChatId, msgChatId, userMsgId, aiMsgId, sentAt, repliedAt, server);
            var before := TurnBase(s, msgChatId, sentAt).messages;
            var reply := CallGeminiApi(content, s.apiKey, server);
            var after := r.currentChat.value.messages;
            && !r.isLoading
            && (reply.Success? ==>
                  && |after| == |before| + 2 && after[..|before|] == before
                  && after[|before|].role == User && after[|before|].content == content
                  && after[|before| + 1].role == Ai && after[|before| + 1].content == reply.value
                  && r.currentChat.value.updatedAt == repliedAt)
            && (reply.Failure? ==>
                  && after == before + [CreateMessage(userMsgId, content, User, sentAt)]
                  && r.currentChat.value.updatedAt == sentAt)
  {
    var r := SendMessageStep(s, content, newChatId, msgChatId, userMsgId, aiMsgId, sentAt, repliedAt, server);
    var before := TurnBase(s, msgChatId, sentAt).messages;
    var after := r.currentChat.value.messages;
    if CallGeminiApi(content, s.apiKey, server).Success? {
      assert after == before + [CreateMessage(userMsgId, content, User, sentAt)]
                             + [CreateMessage(aiMsgId, CallGeminiApi(content, s.apiKey, server).value, Ai, repliedAt)];
      assert after[..|before|] == before;
    }
  }

  /** A file send with a description prompts with the description and captions the message with it. */
  lemma SendFileUsesDescription(s: Snapshot, file: File, description: string, newChatId: string,
                                msgChatId: string, fileMsgId: string, fileUrl: string, aiMsgId: string,
                                sentAt: int, repliedAt: int, server: Server)
    requires s.apiKey != "" && description != ""
    ensures var r := SendFileMessageStep(s, file, description, newChatId, msgChatId, fileMsgId, fileUrl,
                                         aiMsgId, sentAt, repliedAt, server);
            var before := TurnBase(s, msgChatId, sentAt).messages;
            var m := r.currentChat.value.messages[|before|];
            && |r.currentChat.value.messages| > |before|
            && FilePrompt(description, FileKindOf(file.mimeType)) == description
            && m.FileMessage? && m.content == description && m.fileName == file.name
            && (m.fileType == Image <==> JsStrings.StartsWith(file.mimeType, "image/"))
  {
  }

  /**
    From an empty state with a key, sending "Hello" and getting "Hi there" back
    leaves two chats: the current one titled "Hello" holding both messages, and
    behind it the empty chat created on the way.
   */
  lemma HelloScenario(newChatId: string, msgChatId: string, userMsgId: string, aiMsgId: string,
                      sentAt: int, repliedAt: int, server: Server)
    requires newChatId != msgChatId
    requires server("key", TextRequest("Hello")) == HttpResponse(200, ReplyBody("Hi there"))
    ensures var r := SendMessageStep(Snapshot([], None, "key", false), "Hello", newChatId, msgChatId,
                                     userMsgId, aiMsgId, sentAt, repliedAt, server);
            && |r.chats| == 2
            && r.currentChat == Some(r.chats[0])
            && r.chats[0].title == "Hello"
            && |r.chats[0].messages| == 2
            && r.chats[0].messages[0].content == "Hello" && r.chats[0].messages[0].role == User
            && r.chats[0].messages[1].content == "Hi there" && r.chats[0].messages[1].role == Ai
            && r.chats[1] == CreateNewChat(newChatId, sentAt)
  {
    var s := Snapshot([], None, "key", false);
    ExtractReplyBody("Hi there");
    var um := CreateMessage(userMsgId, "Hello", User, sentAt);
    TurnWithoutCurrentChat(s, um, newChatId, msgChatId, sentAt, Success("Hi there"), aiMsgId, repliedAt);
    assert FirstUserIndex([um, CreateMessage(aiMsgId, "Hi there", Ai, repliedAt)]) == Some(0);
  }
}
