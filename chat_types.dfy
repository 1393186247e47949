/** The records of the chat client: messages, file messages and chats. */
module ChatTypes {

  /** The author of a message: `"user" | "ai"`. */
  datatype Role = User | Ai

  /** The kind of an uploaded file: `"image" | "pdf"`. */
  datatype FileKind = Image | Pdf

  /** A file kind as the source spells it. */
  function KindName(k: FileKind): string {
    match k
    case Image => "image"
    case Pdf => "pdf"
  }

  /**
    A chat holds both kinds of message in one sequence. A file message carries every
    field of a plain message plus the file's kind, name and object URL.
    Timestamps are milliseconds since the epoch.
   */
  datatype Message =
    | PlainMessage(id: string, content: string, role: Role, timestamp: int)
    | FileMessage(id: string, content: string, role: Role, timestamp: int,
                  fileType: FileKind, fileName: string, fileUrl: string)

  datatype Chat = Chat(id: string, title: string, messages: seq<Message>,
                       createdAt: int, updatedAt: int)

  /** A browser `File`: its name, declared MIME type, size in bytes and its bytes,
      held as the base64 text the client sends (the encoding itself is not modelled). */
  datatype File = File(name: string, mimeType: string, size: nat, base64: string)

  function Ids(chats: seq<Chat>): set<string> {
    set i | 0 <= i < |chats| :: chats[i].id
  }

  predicate DistinctIds(chats: seq<Chat>) {
    forall i, j :: 0 <= i < j < |chats| ==> chats[i].id != chats[j].id
  }
}
