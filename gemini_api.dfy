/**
  The client of the generation API: the request bodies it sends, the rule that
  turns a response body into reply text, its error conditions, and the title rule
  it exports. The HTTP exchange itself is an oracle `server` that receives the API
  key (sent in the query string) and the request body and answers with a status
  and a parsed body, or fails in transport.
 */
module GeminiApi {
  import opened Wrappers
  import opened ChatTypes
  import JsStrings

  /** One part of a request: a text prompt or an inline file. */
  datatype RequestPart = TextPart(text: string) | InlineDataPart(mimeType: string, data: string)

  datatype RequestContent = RequestContent(parts: seq<RequestPart>)

  /** `{contents: [...]}` */
  datatype RequestBody = RequestBody(contents: seq<RequestContent>)

  /** The parsed response, with every field the reply path reads optional. */
  datatype ResponsePart = ResponsePart(text: Option<string>)
  datatype CandidateContent = CandidateContent(parts: Option<seq<ResponsePart>>)
  datatype Candidate = Candidate(content: Option<CandidateContent>)
  datatype ResponseBody = ResponseBody(candidates: Option<seq<Candidate>>)

  /** What the network gives back: a status with a parsed body, or a thrown failure. */
  datatype HttpOutcome = HttpResponse(status: int, body: ResponseBody) | TransportFailure

  /** The errors the two call functions throw. */
  datatype ApiError = ApiKeyRequired | HttpStatus(status: int) | NetworkError

  type Server = (string, RequestBody) -> HttpOutcome

  const NoResponseText: string := "No response received from API"
  const EmptyResponseText: string := "Empty response received"

  /** `response.ok`: a status in the range 200-299. */
  predicate IsOk(status: int)
    ensures IsOk(status) <==> status / 100 == 2
  {
    200 <= status <= 299
  }

  /** The body of a text-only request: one content holding one text part. */
  function TextRequest(prompt: string): (r: RequestBody)
    ensures |r.contents| == 1 && r.contents[0].parts == [TextPart(prompt)]
  {
    RequestBody([RequestContent([TextPart(prompt)])])
  }

  /** The body of a request with a file: the prompt part, then the inline data part. */
  function FileRequest(prompt: string, mimeType: string, data: string): (r: RequestBody)
    ensures |r.contents| == 1 && |r.contents[0].parts| == 2
    ensures r.contents[0].parts[0] == TextPart(prompt)
    ensures r.contents[0].parts[1] == InlineDataPart(mimeType, data)
  {
    RequestBody([RequestContent([TextPart(prompt), InlineDataPart(mimeType, data)])])
  }

  /** The file request is the text request for the same prompt with the file appended. */
  lemma FileRequestExtendsTextRequest(prompt: string, mimeType: string, data: string)
    ensures FileRequest(prompt, mimeType, data).contents[0].parts
            == TextRequest(prompt).contents[0].parts + [InlineDataPart(mimeType, data)]
  {
  }

  /** `candidates[0].content.parts` is present and non-empty. */
  predicate HasFirstPart(body: ResponseBody) {
    && body.candidates.Some?
    && |body.candidates.value| > 0
    && body.candidates.value[0].content.Some?
    && body.candidates.value[0].content.value.parts.Some?
    && |body.candidates.value[0].content.value.parts.value| > 0
  }

  function FirstPart(body: ResponseBody): ResponsePart
    requires HasFirstPart(body)
  {
    body.candidates.value[0].content.value.parts.value[0]
  }

  /** The reply text of a successful response, with the two fallback texts. */
  function ExtractReply(body: ResponseBody): (r: string)
    ensures !HasFirstPart(body) ==> r == NoResponseText
    ensures HasFirstPart(body) && FirstPart(body).text in {None, Some("")} ==> r == EmptyResponseText
    ensures HasFirstPart(body) && FirstPart(body).text.Some? && FirstPart(body).text.value != "" ==>
              r == FirstPart(body).text.value
    ensures r != ""
  {
    if HasFirstPart(body) then
      match FirstPart(body).text
      case Some(t) => if t != "" then t else EmptyResponseText
      case None => EmptyResponseText
    else NoResponseText
  }

  /** The response body the API sends for a one-candidate, one-part reply. */
  function ReplyBody(text: string): ResponseBody {
    ResponseBody(Some([Candidate(Some(CandidateContent(Some([ResponsePart(Some(text))]))))]))
  }

  /** Any non-empty reply text survives the extraction unchanged. */
  lemma ExtractReplyBody(text: string)
    requires text != ""
    ensures ExtractReply(ReplyBody(text)) == text
  {
  }

  /** The shared tail of both calls: status check, then reply extraction. */
  function Answer(outcome: HttpOutcome): (r: Result<string, ApiError>)
    ensures outcome.TransportFailure? ==> r == Failure(NetworkError)
    ensures outcome.HttpResponse? && !IsOk(outcome.status) ==> r == Failure(HttpStatus(outcome.status))
    ensures outcome.HttpResponse? && IsOk(outcome.status) ==> r == Success(ExtractReply(outcome.body))
    ensures r.Success? ==> r.value != ""
  {
    match outcome
    case TransportFailure => Failure(NetworkError)
    case HttpResponse(status, body) =>
      if !IsOk(status) then Failure(HttpStatus(status)) else Success(ExtractReply(body))
  }

  /** `callGeminiAPI`: refuses an empty key before any request, else asks `server`. */
  function CallGeminiApi(content: string, apiKey: string, server: Server): (r: Result<string, ApiError>)
    ensures apiKey == "" ==> r == Failure(ApiKeyRequired)
    ensures apiKey != "" ==> r == Answer(server(apiKey, TextRequest(content)))
    ensures r.Success? ==> r.value != ""
  {
    if apiKey == "" then Failure(ApiKeyRequired)
    else Answer(server(apiKey, TextRequest(content)))
  }

  /** `callGeminiAPIWithFile`: the same, with the prompt and the file's bytes. The
      file kind is a parameter of the source function that its body never reads. */
  function CallGeminiApiWithFile(prompt: string, apiKey: string, fileBase64: string,
                                 fileType: FileKind, mimeType: string, server: Server)
    : (r: Result<string, ApiError>)
    ensures apiKey == "" ==> r == Failure(ApiKeyRequired)
    ensures apiKey != "" ==> r == Answer(server(apiKey, FileRequest(prompt, mimeType, fileBase64)))
    ensures r.Success? ==> r.value != ""
  {
    if apiKey == "" then Failure(ApiKeyRequired)
    else Answer(server(apiKey, FileRequest(prompt, mimeType, fileBase64)))
  }

  /** A non-ok status reaches the caller as an error carrying that status, never as a reply. */
  lemma NonOkStatusIsError(content: string, apiKey: string, server: Server, status: int, body: ResponseBody)
    requires apiKey != ""
    requires server(apiKey, TextRequest(content)) == HttpResponse(status, body)
    requires !IsOk(status)
    ensures CallGeminiApi(content, apiKey, server) == Failure(HttpStatus(status))
  {
  }

  /** `getEnvApiKey`: the build-time key, or "" when none is configured. */
  function GetEnvApiKey(configured: Option<string>): (k: string)
    ensures configured.Some? && configured.value != "" ==> k == configured.value
    ensures configured.None? || configured.value == "" ==> k == ""
  {
    match configured
    case Some(v) => v
    case None => ""
  }

  /** `generateChatTitle`: the first 30 characters, plus "..." only when longer. */
  function GenerateChatTitle(content: string): (t: string)
    ensures |content| <= 30 ==> t == content
    ensures |content| > 30 ==> t == content[..30] + "..."
    ensures |t| <= 33
  {
    JsStrings.SliceTo(content, 30) + (if |content| > 30 then "..." else "")
  }
}
