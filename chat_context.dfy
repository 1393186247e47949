/**
  The chat context provider: the state cells `chats`, `currentChat`, `apiKey` and
  `isLoading`, and the operations it offers. Every method performs the source's
  steps on the fields and promises the result the matching function of module
  ChatState gives; the properties of those functions are proved there. Local
  storage is the pair of ghost fields `savedChats` and `savedApiKey`.
 */
module ChatContext {
  import opened Wrappers
  import opened ChatTypes
  import opened ChatUtils
  import opened GeminiApi
  import opened ChatState

  /** A notification the provider shows instead of throwing. */
  datatype Toast = Toast(title: string, description: string)

  const KeyRequiredToast := Toast("API Key Required", "Please add your Gemini API key in settings")
  const TextApiErrorToast := Toast("API Error", "Failed to get a response from Gemini API")
  const FileApiErrorToast :=
    Toast("API Error", "Failed to analyze the file. The file might be too large or in an unsupported format.")

  /** The toast a send shows: none on success. */
  function SendToast(apiKey: string, reply: Result<string, ApiError>, errorToast: Toast): (t: Option<Toast>)
    ensures apiKey == "" ==> t == Some(KeyRequiredToast)
    ensures apiKey != "" ==> (t.None? <==> reply.Success?)
    ensures apiKey != "" && reply.Failure? ==> t == Some(errorToast)
  {
    if apiKey == "" then Some(KeyRequiredToast)
    else if reply.Failure? then Some(errorToast)
    else None
  }

  class ChatContextProvider {
    var chats: seq<Chat>
    var currentChat: Option<Chat>
    var apiKey: string
    var isLoading: bool
    /** The build-time key, "" when none is configured. */
    const envApiKey: string
    /** What local storage holds under the chats key and the key key. */
    ghost var savedChats: seq<Chat>
    ghost var savedApiKey: Option<string>

    function State(): Snapshot
      reads this
    {
      Snapshot(chats, currentChat, apiKey, isLoading)
    }

    /**
      The current chat is one of the chats, storage holds the chats, and it holds
      the key in use unless that key is the build-time one.
     */
    ghost predicate Valid()
      reads this
    {
      && CurrentInChats(State())
      && savedChats == chats
      && (ShouldPersistApiKey(apiKey, envApiKey) ==> savedApiKey == Some(apiKey))
    }

    /**
      Mounting: read the stored chats (None when absent or unparsable) and the
      stored key, then the save effects write the loaded state back.
     */
    constructor Load(envKey: string, stored: Option<seq<Chat>>, storedKey: Option<string>)
      ensures Valid()
      ensures State() == LoadStep(envKey, stored, storedKey) && envApiKey == envKey
      ensures savedApiKey == if ShouldPersistApiKey(apiKey, envKey) then Some(apiKey) else storedKey
    {
      envApiKey := envKey;
      var loaded := if stored.Some? then stored.value else [];
      chats := loaded;
      currentChat := if |loaded| > 0 then Some(loaded[MostRecentIndex(loaded)]) else None;
      var key := envKey;
      if envKey == "" && storedKey.Some? && storedKey.value != "" {
        key := storedKey.value;
      }
      apiKey := key;
      isLoading := false;
      savedChats := loaded;
      savedApiKey := if ShouldPersistApiKey(key, envKey) then Some(key) else storedKey;
    }

    /** `setApiKey`; the save effect runs only when the key changes. */
    method SetApiKey(key: string)
      requires Valid()
      modifies this
      ensures Valid()
      ensures State() == SetApiKeyStep(old(State()), key) && savedChats == old(savedChats)
      ensures savedApiKey ==
                if key != old(apiKey) && ShouldPersistApiKey(key, envApiKey) then Some(key)
                else old(savedApiKey)
    {
      var changed := key != apiKey;
      apiKey := key;
      if changed && ShouldPersistApiKey(key, envApiKey) {
        savedApiKey := Some(key);
      }
    }

    /** `handleCreateNewChat`. */
    method CreateNewChat(id: string, now: int)
      requires Valid()
      modifies this
      ensures Valid()
      ensures State() == CreateChatStep(old(State()), id, now) && savedApiKey == old(savedApiKey)
    {
      var newChat := ChatUtils.CreateNewChat(id, now);
      chats := [newChat] + chats;
      savedChats := chats;
      currentChat := Some(newChat);
    }

    /** `selectChat`. */
    method SelectChat(id: string)
      requires Valid()
      modifies this
      ensures Valid()
      ensures State() == SelectStep(old(State()), id) && savedApiKey == old(savedApiKey)
    {
      var selected := FindChat(chats, id);
      if selected.Some? {
        currentChat := selected;
      }
    }

    /** `deleteChat`. */
    method DeleteChat(id: string)
      requires Valid()
      modifies this
      ensures Valid()
      ensures State() == DeleteStep(old(State()), id) && savedApiKey == old(savedApiKey)
    {
      var before := chats;
      chats := RemoveChat(chats, id);
      savedChats := chats;
      if currentChat.Some? && currentChat.value.id == id {
        var remaining := RemoveChat(before, id);
        currentChat := if |remaining| > 0 then Some(remaining[0]) else None;
      }
    }

    /** `clearChats`. */
    method ClearChats()
      requires Valid()
      modifies this
      ensures Valid()
      ensures State() == ClearStep(old(State())) && savedApiKey == old(savedApiKey)
    {
      chats := [];
      savedChats := chats;
      currentChat := None;
    }

    /**
      The optimistic update of a send: the message is appended to the chat that
      was current when the send began, or put alone in a second new chat, and that
      chat is upserted and made current.
     */
    method PutOptimistic(current: Option<Chat>, message: Message, msgChatId: string, sentAt: int)
      returns (updated: Chat)
      requires Valid()
      modifies this
      ensures Valid()
      ensures updated ==
                AppendMessage(if current.Some? then current.value else ChatUtils.CreateNewChat(msgChatId, sentAt),
                              message, sentAt)
      ensures chats == Upsert(old(chats), updated) && currentChat == Some(updated)
      ensures apiKey == old(apiKey) && isLoading == old(isLoading) && savedApiKey == old(savedApiKey)
    {
      if current.Some? {
        updated := AppendMessage(current.value, message, sentAt);
      } else {
        updated := ChatUtils.CreateNewChat(msgChatId, sentAt);
        updated := updated.(messages := [message]);
        assert ChatUtils.CreateNewChat(msgChatId, sentAt).messages + [message] == [message];
      }
      currentChat := Some(updated);
      chats := Upsert(chats, updated);
      savedChats := chats;
    }

    /** The confirmed update of a send: append the reply, derive the title, upsert. */
    method ApplyReply(updated: Chat, reply: Result<string, ApiError>, aiMsgId: string, repliedAt: int)
      requires Valid()
      modifies this
      ensures Valid()
      ensures State() == ConfirmStep(old(State()), updated, reply, aiMsgId, repliedAt)
      ensures savedApiKey == old(savedApiKey)
    {
      if reply.Success? {
        var aiMessage := CreateMessage(aiMsgId, reply.value, Ai, repliedAt);
        var finalChat := AppendMessage(updated, aiMessage, repliedAt);
        var titledChat := UpdateChatTitle(finalChat);
        currentChat := Some(titledChat);
        chats := Upsert(chats, titledChat);
        savedChats := chats;
      }
    }

    /** `sendMessage`, with the network reached through `server`. */
    method SendMessage(content: string, newChatId: string, msgChatId: string, userMsgId: string,
                       aiMsgId: string, sentAt: int, repliedAt: int, server: Server)
      returns (toast: Option<Toast>)
      requires Valid()
      modifies this
      ensures Valid()
      ensures State() == SendMessageStep(old(State()), content, newChatId, msgChatId, userMsgId,
                                         aiMsgId, sentAt, repliedAt, server)
      ensures toast == SendToast(old(apiKey), CallGeminiApi(content, old(apiKey), server), TextApiErrorToast)
      ensures savedApiKey == old(savedApiKey)
    {
      if apiKey == "" {
        toast := Some(KeyRequiredToast);
        return;
      }
      var current := currentChat;
      if current.None? {
        CreateNewChat(newChatId, sentAt);
      }
      var userMessage := CreateMessage(userMsgId, content, User, sentAt);
      var updated := PutOptimistic(current, userMessage, msgChatId, sentAt);
      isLoading := true;
      var reply := CallGeminiApi(content, apiKey, server);
      ApplyReply(updated, reply, aiMsgId, repliedAt);
      toast := if reply.Failure? then Some(TextApiErrorToast) else None;
      isLoading := false;
    }

    /** `sendFileMessage`; "" stands for an absent description. */
    method SendFileMessage(file: File, description: string, newChatId: string, msgChatId: string,
                           fileMsgId: string, fileUrl: string, aiMsgId: string, sentAt: int,
                           repliedAt: int, server: Server)
      returns (toast: Option<Toast>)
      requires Valid()
      modifies this
      ensures Valid()
      ensures State() == SendFileMessageStep(old(State()), file, description, newChatId, msgChatId,
                                             fileMsgId, fileUrl, aiMsgId, sentAt, repliedAt, server)
      ensures var kind := FileKindOf(file.mimeType);
              toast == SendToast(old(apiKey),
                                 CallGeminiApiWithFile(FilePrompt(description, kind), old(apiKey),
                                                       file.base64, kind, file.mimeType, server),
                                 FileApiErrorToast)
      ensures savedApiKey == old(savedApiKey)
    {
      if apiKey == "" {
        toast := Some(KeyRequiredToast);
        return;
      }
      var current := currentChat;
      if current.None? {
        CreateNewChat(newChatId, sentAt);
      }
      var fileType := FileKindOf(file.mimeType);
      var fileMessage := FileMessageFor(file, description, fileMsgId, fileUrl, sentAt);
      var updated := PutOptimistic(current, fileMessage, msgChatId, sentAt);
      isLoading := true;
      var prompt := FilePrompt(description, fileType);
      var reply := CallGeminiApiWithFile(prompt, apiKey, file.base64, fileType, file.mimeType, server);
      ApplyReply(updated, reply, aiMsgId, repliedAt);
      toast := if reply.Failure? then Some(FileApiErrorToast) else None;
      isLoading := false;
    }
  }
}
