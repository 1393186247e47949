/**
  The entity factory and the title deriver. The id generator, the clock and
  `URL.createObjectURL` are not modelled: their values are parameters.
 */
module ChatUtils {
  import opened Wrappers
  import opened ChatTypes
  import JsStrings

  /** The title every new chat starts with, and the one the deriver replaces. */
  const NewChatTitle: string := "New Chat"

  /** Titles keep at most this many characters of the first user message. */
  const TitleLength: nat := 30

  const Ellipsis: string := "..."

  /** `createMessage`: a plain message holding `content` and `role` verbatim. */
  function CreateMessage(id: string, content: string, role: Role, now: int): (m: Message)
    ensures m.PlainMessage?
    ensures m.id == id && m.content == content && m.role == role && m.timestamp == now
  {
    PlainMessage(id, content, role, now)
  }

  /** The caption a file message gets when no content is given. */
  function UploadCaption(fileType: FileKind, fileName: string): (r: string)
    ensures |r| > |fileName| && r[|r| - |fileName|..] == fileName
  {
    "Uploaded " + KindName(fileType) + ": " + fileName
  }

  /**
    `createFileMessage`: a user message describing an uploaded file. The empty
    string stands for both an absent and an empty `content`.
   */
  function CreateFileMessage(id: string, fileUrl: string, fileType: FileKind, fileName: string,
                             content: string, now: int): (m: Message)
    ensures m.FileMessage? && m.role == User
    ensures m.id == id && m.timestamp == now
    ensures m.fileType == fileType && m.fileName == fileName && m.fileUrl == fileUrl
    ensures content != "" ==> m.content == content
    ensures content == "" ==> m.content == UploadCaption(fileType, fileName)
    ensures m.content != ""
  {
    FileMessage(id, if content != "" then content else UploadCaption(fileType, fileName),
                User, now, fileType, fileName, fileUrl)
  }

  /** `createNewChat`: an empty chat with the sentinel title, created and updated now. */
  function CreateNewChat(id: string, now: int): (c: Chat)
    ensures c.id == id && c.title == NewChatTitle && c.messages == []
    ensures c.createdAt == now && c.updatedAt == now
  {
    Chat(id, NewChatTitle, [], now, now)
  }

  /** The index of the first message written by the user, if there is one. */
  function FirstUserIndex(ms: seq<Message>): (r: Option<nat>)
    ensures r.None? <==> forall i :: 0 <= i < |ms| ==> ms[i].role != User
    ensures r.Some? ==> r.value < |ms| && ms[r.value].role == User
    ensures r.Some? ==> forall j :: 0 <= j < r.value ==> ms[j].role != User
  {
    if |ms| == 0 then None
    else if ms[0].role == User then Some(0)
    else match FirstUserIndex(ms[1..])
      case None => None
      case Some(k) => Some(k + 1)
  }

  /** The title rule: the first 30 characters, and "..." only when something was cut. */
  function TitleFromContent(content: string): (t: string)
    ensures |content| <= TitleLength ==> t == content
    ensures |content| > TitleLength ==> t == content[..TitleLength] + Ellipsis
    ensures |t| <= TitleLength + |Ellipsis|
  {
    JsStrings.SliceTo(content, TitleLength) + (if |content| > TitleLength then Ellipsis else "")
  }

  /**
    `updateChatTitle`: a chat still titled "New Chat" that holds a user message
    takes its title from the first user message; every other chat is returned as is.
   */
  function UpdateChatTitle(chat: Chat): (r: Chat)
    ensures r.id == chat.id && r.messages == chat.messages
    ensures r.createdAt == chat.createdAt && r.updatedAt == chat.updatedAt
    ensures chat.title != NewChatTitle ==> r == chat
    ensures FirstUserIndex(chat.messages).None? ==> r == chat
    ensures chat.title == NewChatTitle && FirstUserIndex(chat.messages).Some? ==>
              r.title == TitleFromContent(chat.messages[FirstUserIndex(chat.messages).value].content)
  {
    if chat.title == NewChatTitle && |chat.messages| > 0 then
      match FirstUserIndex(chat.messages)
      case Some(i) => chat.(title := TitleFromContent(chat.messages[i].content))
      case None => chat
    else chat
  }

  /** Deriving the title a second time changes nothing. */
  lemma UpdateChatTitleIdempotent(chat: Chat)
    ensures UpdateChatTitle(UpdateChatTitle(chat)) == UpdateChatTitle(chat)
  {
  }

  /** A derived title never exceeds 33 characters and starts with the first user message. */
  lemma DerivedTitleShape(chat: Chat)
    requires chat.title == NewChatTitle
    requires FirstUserIndex(chat.messages).Some?
    ensures var content := chat.messages[FirstUserIndex(chat.messages).value].content;
            var t := UpdateChatTitle(chat).title;
            |t| <= 33
            && (|content| <= 30 ==> t == content)
            && (|content| > 30 ==> t[..30] == content[..30] && t[30..] == "...")
  {
  }
}
