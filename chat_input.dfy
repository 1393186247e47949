/**
  The message box: the empty-input guard on submit, the file checks on selection,
  the default description of an uploaded file, and the dialog state.
 */
module ChatInput {
  import opened Wrappers
  import opened ChatTypes
  import JsStrings
  import opened GeminiApi
  import opened ChatState
  import opened ChatContext

  /** The MIME types an upload may have. */
  const ValidFileTypes: seq<string> := ["application/pdf", "image/jpeg", "image/png", "image/gif", "image/webp"]

  /** 10 MiB. */
  const MaxFileSize: nat := 10 * 1024 * 1024

  /** The outcome of the checks on a selected file; each rejection shows its own toast. */
  datatype FileCheck = Accepted | InvalidFileType | FileTooLarge

  /** The type check comes first, then the size check; exactly 10 MiB passes. */
  function ValidateFile(file: File): (r: FileCheck)
    ensures r == InvalidFileType <==> file.mimeType !in ValidFileTypes
    ensures r == FileTooLarge <==> file.mimeType in ValidFileTypes && file.size > 10485760
    ensures r == Accepted <==> file.mimeType in ValidFileTypes && file.size <= 10485760
  {
    if file.mimeType !in ValidFileTypes then InvalidFileType
    else if file.size > MaxFileSize then FileTooLarge
    else Accepted
  }

  /** Of the accepted types, only the PDF one is sent as a "pdf"; the rest are images. */
  lemma AcceptedFileKind(file: File)
    requires ValidateFile(file) == Accepted
    ensures FileKindOf(file.mimeType) == Pdf <==> file.mimeType == "application/pdf"
  {
    assert !JsStrings.StartsWith("application/pdf", "image/") by {
      assert "application/pdf"[..6] != "image/" by { assert "application/pdf"[0] == 'a'; }
    }
    assert JsStrings.StartsWith("image/jpeg", "image/") by { assert "image/jpeg"[..6] == "image/"; }
    assert JsStrings.StartsWith("image/png", "image/") by { assert "image/png"[..6] == "image/"; }
    assert JsStrings.StartsWith("image/gif", "image/") by { assert "image/gif"[..6] == "image/"; }
    assert JsStrings.StartsWith("image/webp", "image/") by { assert "image/webp"[..6] == "image/"; }
  }

  /** `!input.trim()`: blank input is exactly input made of whitespace characters only. */
  predicate IsBlank(input: string)
    ensures IsBlank(input) <==> JsStrings.AllWhitespace(input)
  {
    JsStrings.TrimEmptyIffAllWhitespace(input);
    JsStrings.Trim(input) == ""
  }

  /** The description the dialog sends: what the user typed, else "Analyze this image" or "Analyze this PDF". */
  function DescriptionFor(file: File, fileDescription: string): (d: string)
    ensures fileDescription != "" ==> d == fileDescription
    ensures fileDescription == "" && JsStrings.StartsWith(file.mimeType, "image/") ==> d == "Analyze this image"
    ensures fileDescription == "" && !JsStrings.StartsWith(file.mimeType, "image/") ==> d == "Analyze this PDF"
    ensures d != ""
  {
    if fileDescription != "" then fileDescription
    else "Analyze this " + (if JsStrings.StartsWith(file.mimeType, "image/") then "image" else "PDF")
  }

  /**
    A file sent from the dialog always carries a description, so the provider
    prompts with it and never falls back to its own default prompts.
   */
  lemma DialogSendPromptsWithDescription(file: File, fileDescription: string)
    ensures var d := DescriptionFor(file, fileDescription);
            && FilePrompt(d, FileKindOf(file.mimeType)) == d
            && (fileDescription == "" ==> d != ImagePrompt && d != PdfPrompt)
  {
  }

  class ChatInput {
    var input: string
    var selectedFile: Option<File>
    var fileDialogOpen: bool
    var fileDescription: string

    constructor ()
      ensures input == "" && selectedFile.None? && !fileDialogOpen && fileDescription == ""
    {
      input := "";
      selectedFile := None;
      fileDialogOpen := false;
      fileDescription := "";
    }

    /** `handleSubmit`: blank input is ignored; otherwise it is sent as typed and cleared. */
    method HandleSubmit(ctx: ChatContextProvider, newChatId: string, msgChatId: string, userMsgId: string,
                        aiMsgId: string, sentAt: int, repliedAt: int, server: Server)
      requires ctx.Valid()
      modifies this, ctx
      ensures ctx.Valid()
      ensures IsBlank(old(input)) ==> ctx.State() == old(ctx.State()) && input == old(input)
      ensures !IsBlank(old(input)) ==>
                && ctx.State() == SendMessageStep(old(ctx.State()), old(input), newChatId, msgChatId,
                                                  userMsgId, aiMsgId, sentAt, repliedAt, server)
                && input == ""
      ensures selectedFile == old(selectedFile) && fileDialogOpen == old(fileDialogOpen)
      ensures fileDescription == old(fileDescription)
      ensures ctx.savedApiKey == old(ctx.savedApiKey)
    {
      if IsBlank(input) {
        return;
      }
      var text := input;
      ghost var before := ctx.State();
      var _ := ctx.SendMessage(text, newChatId, msgChatId, userMsgId, aiMsgId, sentAt, repliedAt, server);
      assert ctx.State() == SendMessageStep(before, text, newChatId, msgChatId, userMsgId, aiMsgId,
                                            sentAt, repliedAt, server);
      input := "";
    }

    /**
      `handleFileSelect`: nothing happens when no file was chosen; a file that fails
      a check is reported and dropped; an accepted one is kept and the dialog opens.
     */
    method HandleFileSelect(file: Option<File>) returns (check: Option<FileCheck>)
      modifies this
      ensures check == if file.Some? then Some(ValidateFile(file.value)) else None
      ensures check == Some(Accepted) ==> selectedFile == file && fileDialogOpen
      ensures check != Some(Accepted) ==>
                selectedFile == old(selectedFile) && fileDialogOpen == old(fileDialogOpen)
      ensures input == old(input) && fileDescription == old(fileDescription)
    {
      if file.None? {
        return None;
      }
      var result := ValidateFile(file.value);
      check := Some(result);
      if result != Accepted {
        return;
      }
      selectedFile := file;
      fileDialogOpen := true;
    }

    /** `closeFileDialog`. */
    method CloseFileDialog()
      modifies this
      ensures !fileDialogOpen && selectedFile.None? && fileDescription == ""
      ensures input == old(input)
    {
      fileDialogOpen := false;
      selectedFile := None;
      fileDescription := "";
    }

    /** `handleSendFile`: send the selected file with its description, then close the dialog. */
    method HandleSendFile(ctx: ChatContextProvider, newChatId: string, msgChatId: string, fileMsgId: string,
                          fileUrl: string, aiMsgId: string, sentAt: int, repliedAt: int, server: Server)
      requires ctx.Valid()
      modifies this, ctx
      ensures ctx.Valid()
      ensures old(selectedFile).None? ==>
                && ctx.State() == old(ctx.State())
                && selectedFile == old(selectedFile) && fileDialogOpen == old(fileDialogOpen)
                && fileDescription == old(fileDescription)
      ensures old(selectedFile).Some? ==>
                && ctx.State() == SendFileMessageStep(old(ctx.State()), old(selectedFile).value,
                                                      DescriptionFor(old(selectedFile).value, old(fileDescription)),
                                                      newChatId, msgChatId, fileMsgId, fileUrl, aiMsgId,
                                                      sentAt, repliedAt, server)
                && !fileDialogOpen && selectedFile.None? && fileDescription == ""
      ensures input == old(input)
      ensures ctx.savedApiKey == old(ctx.savedApiKey)
    {
      if selectedFile.None? {
        return;
      }
      var file := selectedFile.value;
      var description := DescriptionFor(file, fileDescription);
      var _ := ctx.SendFileMessage(file, description, newChatId, msgChatId, fileMsgId, fileUrl, aiMsgId,
                                   sentAt, repliedAt, server);
      CloseFileDialog();
    }
  }
}
