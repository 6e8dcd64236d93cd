/** The transport client of src/services/api.ts: how each operation builds its
    request, how a response is normalised into an `ApiResponse`, and which
    failures are caught. The network itself is a parameter: an operation is
    given either a transport failure (`fetch` rejected) or the response it
    received. */
module Api {
  import opened Types
  import Text

  const DefaultBaseUrl := "http://localhost:5000/api"
  const InvalidServerResponse := "Invalid server response"
  const ChatNetworkError := "Network error. Is the backend running?"
  const DiagnoseNetworkError := "Network error. Please try again."
  const TranscriptionError := "Transcription failed. Please try again."
  const SessionsError := "Failed to fetch sessions."
  const SaveSessionError := "Failed to save session."
  const RecordingFileName := "recording.webm"

  /** The `data` of a chat reply; the server may leave either property out. */
  datatype ChatReply = ChatReply(reply: Nullish<string>, sessionId: Nullish<string>)

  /** The `data` of a transcription. */
  datatype Transcript = Transcript(text: Nullish<string>)

  // ─── Responses ──────────────────────────────────────────────────────────────

  /** What `res.json()` made of a response body. */
  datatype Body<+T> =
    | Unparseable   // `res.json()` rejected
    | JsonNull      // the JSON literal `null`
    | JsonScalar    // a number, string, boolean or array: no `success`, `error` or `data` property
    | JsonObject(success: JsValue, error: Nullish<string>, data: Nullish<T>)

  datatype HttpResponse<+T> = HttpResponse(status: nat, body: Body<T>)

  /** `res.ok`: a status in the range 200-299, as the Fetch standard defines it. */
  predicate Ok(status: nat) {
    200 <= status <= 299
  }

  /** A settled promise: fulfilled with a value, or rejected. */
  datatype Outcome<+T> = Returned(value: T) | Threw

  /** The three properties `handleResponse` reads off the parsed body. */
  datatype Fields<+T> = Fields(success: JsValue, error: Nullish<string>, data: Nullish<T>)

  /** Reading `json.success`, `json.error`, `json.data`. A body that did not
      parse was replaced by `{ success: false, error: 'Invalid server response' }`;
      a scalar has none of the properties; on `null` the read throws (`None`). */
  function ReadFields<T>(body: Body<T>): Option<Fields<T>> {
    match body
    case Unparseable => Some(Fields(JsBool(false), Defined(InvalidServerResponse), Undefined))
    case JsonNull => None
    case JsonScalar => Some(Fields(JsUndefined, Undefined, Undefined))
    case JsonObject(s, e, d) => Some(Fields(s, e, d))
  }

  /** `json.error ?? \`HTTP ${res.status}\`` */
  function FailureText(error: Nullish<string>, status: nat): string {
    error.Or("HTTP " + Text.Decimal(status))
  }

  /** The envelope built from the properties read. */
  function Envelope<T>(status: nat, f: Fields<T>): ApiResponse<T> {
    if !Ok(status) || !Truthy(f.success) then Failure(FailureText(f.error, status))
    else Succeeded(f.data)
  }

  /** `handleResponse` as written: it rejects when the body is `null`, and
      otherwise settles with the envelope the corrected version builds. */
  function HandleResponseAsWritten<T>(res: HttpResponse<T>): (out: Outcome<ApiResponse<T>>)
    ensures out.Threw? <==> res.body.JsonNull?
    ensures out.Returned? ==> out.value == HandleResponse(res)
  {
    match ReadFields(res.body)
    case None => Threw
    case Some(f) => Returned(Envelope(res.status, f))
  }

  /** `handleResponse` with a `null` body read as a body without properties,
      so that it always yields an envelope. */
  function HandleResponse<T>(res: HttpResponse<T>): (r: ApiResponse<T>)
    ensures r.success <==> Ok(res.status) && res.body.JsonObject? && Truthy(res.body.success)
    ensures r.success ==> r.data == res.body.data && r.error == Undefined
    ensures !r.success ==> r.data == Undefined && r.error.Defined?
    ensures res.body.Unparseable? ==> r == Failure(InvalidServerResponse)
    ensures !r.success && res.body.JsonObject? && res.body.error.Defined? ==> r.error == res.body.error
    ensures !r.success && !res.body.Unparseable? && !(res.body.JsonObject? && res.body.error.Defined?) ==>
              r.error == Defined("HTTP " + Text.Decimal(res.status))
  {
    match ReadFields(res.body)
    case None => Failure(FailureText(Undefined, res.status))
    case Some(f) => Envelope(res.status, f)
  }

  /** The two agree on every body except `null`, where the version as written rejects. */
  lemma HandleResponseAgrees<T>(res: HttpResponse<T>)
    ensures !res.body.JsonNull? ==> HandleResponseAsWritten(res) == Returned(HandleResponse(res))
    ensures res.body.JsonNull? ==> HandleResponseAsWritten(res) == Threw
  {
  }

  // ─── Operations ─────────────────────────────────────────────────────────────

  datatype Operation = Register | Login | SendChat | AnalyzeImages | Transcribe | GetSessions | SaveSession {

    /** The message the operation's `catch` returns; `register` and `login` have no `catch`. */
    function CatchMessage(): Option<string> {
      match this
      case Register => None
      case Login => None
      case SendChat => Some(ChatNetworkError)
      case AnalyzeImages => Some(DiagnoseNetworkError)
      case Transcribe => Some(TranscriptionError)
      case GetSessions => Some(SessionsError)
      case SaveSession => Some(SaveSessionError)
    }
  }

  /** What the network did with a request. */
  datatype Transport<+T> = NetworkFailure | Received(res: HttpResponse<T>)

  /** An operation as written. A rejected `fetch` is awaited inside `try`, so
      the `catch` (where there is one) turns it into a failure envelope; but
      `return handleResponse(res)` is not awaited, so a rejection of
      `handleResponse` escapes the `catch`. */
  function CallAsWritten<T>(op: Operation, t: Transport<T>): (out: Outcome<ApiResponse<T>>)
    ensures out.Threw? <==> (t.NetworkFailure? && op.CatchMessage().None?) || (t.Received? && t.res.body.JsonNull?)
    ensures t.NetworkFailure? && out.Returned? ==> out.value == Failure(op.CatchMessage().value)
    ensures t.Received? && out.Returned? ==> out.value == HandleResponse(t.res)
  {
    match t
    case NetworkFailure =>
      (match op.CatchMessage()
       case Some(m) => Returned(Failure(m))
       case None => Threw)
    case Received(res) => HandleResponseAsWritten(res)
  }

  /** An operation with `handleResponse` corrected: only `register` and
      `login`, which have no `catch`, can reject, and only when the transport
      failed. */
  function Call<T>(op: Operation, t: Transport<T>): (out: Outcome<ApiResponse<T>>)
    ensures out.Threw? <==> t.NetworkFailure? && (op == Register || op == Login)
    ensures t.NetworkFailure? && out.Returned? ==>
              out.value == Failure(op.CatchMessage().value) && !out.value.success
    ensures out.Returned? && out.value.success ==> t.Received? && Ok(t.res.status)
    ensures t.Received? ==> out == Returned(HandleResponse(t.res))
  {
    match t
    case NetworkFailure =>
      (match op.CatchMessage()
       case Some(m) => Returned(Failure(m))
       case None => Threw)
    case Received(res) => Returned(HandleResponse(res))
  }

  /** Every operation, as written, rejects when the server answers with a
      `null` body, even the five that promise to catch their failures; the
      corrected operation answers with an `HTTP <status>` failure instead. */
  lemma NullBodyEscapesCatch<T>(op: Operation, status: nat)
    ensures var t: Transport<T> := Received(HttpResponse(status, JsonNull));
            CallAsWritten(op, t) == Threw && Call(op, t) == Returned(Failure("HTTP " + Text.Decimal(status)))
  {
  }

  /** Apart from that body the corrected operation behaves as written. */
  lemma CallAgrees<T>(op: Operation, t: Transport<T>)
    requires !(t.Received? && t.res.body.JsonNull?)
    ensures CallAsWritten(op, t) == Call(op, t)
  {
  }

  // ─── Requests ───────────────────────────────────────────────────────────────

  datatype Method = Get | Post

  /** One entry of a `FormData` body. */
  datatype FormPart =
    | TextPart(name: string, value: string)
    | FilePart(name: string, file: FileHandle)
    | BlobPart(name: string, blob: Blob, fileName: string)

  /** One property of a `JSON.stringify`ed body. */
  datatype JsonField = StringField(key: string, value: string) | MessagesField(key: string, messages: seq<Message>)

  datatype RequestBody = NoBody | Json(fields: seq<JsonField>) | Form(parts: seq<FormPart>)

  datatype Request = Request(verb: Method, url: string, headers: map<string, string>, body: RequestBody)

  /** The process-wide configuration a request is built from: the
      `VITE_API_BASE_URL` setting and what `localStorage.getItem('agri_token')` returns. */
  datatype Context = Context(baseUrlSetting: Nullish<string>, token: Nullish<string>)

  /** `import.meta.env.VITE_API_BASE_URL || 'http://localhost:5000/api'`: a
      set, non-empty setting wins; an unset or empty one falls back, so the
      base is never empty. */
  function BaseUrl(setting: Nullish<string>): (url: string)
    ensures url != []
    ensures Present(setting) ==> url == setting.value
    ensures !Present(setting) ==> url == DefaultBaseUrl
  {
    if Present(setting) then setting.value else DefaultBaseUrl
  }

  const BearerPrefix := "Bearer "

  /** The token an `Authorization` header value carries. */
  function BearerToken(value: string): Option<string> {
    if Text.StartsWith(value, BearerPrefix) then Some(value[|BearerPrefix|..]) else None
  }

  /** Headers that carry the stored token as a bearer token exactly when a
      non-empty token is stored. */
  predicate CarriesToken(headers: map<string, string>, token: Nullish<string>) {
    && ("Authorization" in headers <==> Present(token))
    && ("Authorization" in headers ==> BearerToken(headers["Authorization"]) == Some(token.value))
  }

  /** `getAuthHeader()`: a bearer header exactly when a non-empty token is stored. */
  function AuthHeader(token: Nullish<string>): (h: map<string, string>)
    ensures h.Keys <= {"Authorization"}
    ensures "Authorization" in h <==> Present(token)
    ensures "Authorization" in h ==> BearerToken(h["Authorization"]) == Some(token.value)
  {
    if Present(token) then map["Authorization" := BearerPrefix + token.value] else map[]
  }

  const JsonContentType: map<string, string> := map["Content-Type" := "application/json"]

  /** The text values a multipart body carries under `name`, in order. */
  function TextValues(parts: seq<FormPart>, name: string): seq<string> {
    if parts == [] then []
    else (if parts[0].TextPart? && parts[0].name == name then [parts[0].value] else [])
         + TextValues(parts[1..], name)
  }

  /** The files a multipart body carries under `name`, in order. */
  function FileValues(parts: seq<FormPart>, name: string): seq<FileHandle> {
    if parts == [] then []
    else (if parts[0].FilePart? && parts[0].name == name then [parts[0].file] else [])
         + FileValues(parts[1..], name)
  }

  /** The recordings a multipart body carries under `name`, in order, each
      with the file name it was sent under. */
  function AudioValues(parts: seq<FormPart>, name: string): seq<(Blob, string)> {
    if parts == [] then []
    else (if parts[0].BlobPart? && parts[0].name == name then [(parts[0].blob, parts[0].fileName)] else [])
         + AudioValues(parts[1..], name)
  }

  /** Appending form parts appends the text values read under every name. */
  lemma {:induction false} TextValuesAppend(a: seq<FormPart>, b: seq<FormPart>, name: string)
    ensures TextValues(a + b, name) == TextValues(a, name) + TextValues(b, name)
  {
    if a == [] {
      assert a + b == b;
    } else {
      assert (a + b)[1..] == a[1..] + b;
      TextValuesAppend(a[1..], b, name);
    }
  }

  /** Appending form parts appends the files read under every name. */
  lemma {:induction false} FileValuesAppend(a: seq<FormPart>, b: seq<FormPart>, name: string)
    ensures FileValues(a + b, name) == FileValues(a, name) + FileValues(b, name)
  {
    if a == [] {
      assert a + b == b;
    } else {
      assert (a + b)[1..] == a[1..] + b;
      FileValuesAppend(a[1..], b, name);
    }
  }

  lemma ValuesOfOne(p: FormPart, name: string)
    ensures TextValues([p], name) == if p.TextPart? && p.name == name then [p.value] else []
    ensures FileValues([p], name) == if p.FilePart? && p.name == name then [p.file] else []
    ensures AudioValues([p], name) == if p.BlobPart? && p.name == name then [(p.blob, p.fileName)] else []
  {
    assert [p][1..] == [];
  }

  /** `files.forEach((f) => formData.append(name, f))` */
  function FileParts(name: string, files: seq<FileHandle>): (parts: seq<FormPart>)
    ensures |parts| == |files|
    ensures forall k :: 0 <= k < |files| ==> parts[k] == FilePart(name, files[k])
  {
    if files == [] then [] else [FilePart(name, files[0])] + FileParts(name, files[1..])
  }

  /** Reading back the file parts yields the files, in order, under their name only. */
  lemma {:induction false} FilePartsValues(name: string, files: seq<FileHandle>, other: string)
    ensures TextValues(FileParts(name, files), other) == []
    ensures FileValues(FileParts(name, files), other) == if other == name then files else []
  {
    if files != [] {
      var head := FilePart(name, files[0]);
      var tail := FileParts(name, files[1..]);
      TextValuesAppend([head], tail, other);
      FileValuesAppend([head], tail, other);
      ValuesOfOne(head, other);
      FilePartsValues(name, files[1..], other);
    }
  }

  /** `if (sessionId) formData.append('sessionId', sessionId)` */
  function SessionPart(sessionId: Nullish<string>): seq<FormPart> {
    if Present(sessionId) then [TextPart("sessionId", sessionId.value)] else []
  }

  lemma SessionPartValues(sessionId: Nullish<string>, name: string)
    ensures TextValues(SessionPart(sessionId), name) ==
            if Present(sessionId) && name == "sessionId" then [sessionId.value] else []
    ensures FileValues(SessionPart(sessionId), name) == []
  {
    if Present(sessionId) {
      ValuesOfOne(TextPart("sessionId", sessionId.value), name);
    }
  }

  /** The multipart body of `sendChatMessage`: the message, then the session
      id when one is set, then the images in order. */
  function ChatParts(message: string, images: Nullish<seq<FileHandle>>, sessionId: Nullish<string>): (parts: seq<FormPart>)
    ensures |parts| == 1 + |SessionPart(sessionId)| + |images.Or([])|
    ensures parts[0] == TextPart("message", message)
  {
    [TextPart("message", message)] + SessionPart(sessionId) + FileParts("images", images.Or([]))
  }

  /** Reading back a body made of three runs of parts. */
  lemma ValuesOfThree(a: seq<FormPart>, b: seq<FormPart>, c: seq<FormPart>, name: string)
    ensures TextValues(a + b + c, name) == TextValues(a, name) + TextValues(b, name) + TextValues(c, name)
    ensures FileValues(a + b + c, name) == FileValues(a, name) + FileValues(b, name) + FileValues(c, name)
  {
    TextValuesAppend(a, b, name);
    TextValuesAppend(a + b, c, name);
    FileValuesAppend(a, b, name);
    FileValuesAppend(a + b, c, name);
  }

  /** What a server reads back from the chat body under one name. */
  lemma ChatPartsRead(message: string, images: Nullish<seq<FileHandle>>, sessionId: Nullish<string>, name: string)
    ensures TextValues(ChatParts(message, images, sessionId), name) ==
            (if name == "message" then [message] else []) +
            (if Present(sessionId) && name == "sessionId" then [sessionId.value] else [])
    ensures FileValues(ChatParts(message, images, sessionId), name) == if name == "images" then images.Or([]) else []
  {
    var m := [TextPart("message", message)];
    var s := SessionPart(sessionId);
    var f := FileParts("images", images.Or([]));
    assert ChatParts(message, images, sessionId) == m + s + f;
    ValuesOfThree(m, s, f, name);
    ValuesOfOne(m[0], name);
    SessionPartValues(sessionId, name);
    FilePartsValues("images", images.Or([]), name);
  }

  /** A server reading the chat body back gets the message once, the session
      id exactly when it is non-empty, and every image in order. */
  lemma ChatPartsReadBack(message: string, images: Nullish<seq<FileHandle>>, sessionId: Nullish<string>)
    ensures TextValues(ChatParts(message, images, sessionId), "message") == [message]
    ensures TextValues(ChatParts(message, images, sessionId), "sessionId") ==
            if Present(sessionId) then [sessionId.value] else []
    ensures FileValues(ChatParts(message, images, sessionId), "images") == images.Or([])
  {
    ChatPartsRead(message, images, sessionId, "message");
    ChatPartsRead(message, images, sessionId, "sessionId");
    ChatPartsRead(message, images, sessionId, "images");
  }

  /** The multipart body of `analyzeCropImages`: the images first, then the
      message, then the session id when one is set. */
  function DiagnoseParts(images: seq<FileHandle>, message: string, sessionId: Nullish<string>): (parts: seq<FormPart>)
    ensures |parts| == |images| + 1 + |SessionPart(sessionId)|
    ensures forall k :: 0 <= k < |images| ==> parts[k] == FilePart("images", images[k])
    ensures parts[|images|] == TextPart("message", message)
  {
    FileParts("images", images) + [TextPart("message", message)] + SessionPart(sessionId)
  }

  /** What a server reads back from the diagnosis body under one name. */
  lemma DiagnosePartsRead(images: seq<FileHandle>, message: string, sessionId: Nullish<string>, name: string)
    ensures TextValues(DiagnoseParts(images, message, sessionId), name) ==
            (if name == "message" then [message] else []) +
            (if Present(sessionId) && name == "sessionId" then [sessionId.value] else [])
    ensures FileValues(DiagnoseParts(images, message, sessionId), name) == if name == "images" then images else []
  {
    var f := FileParts("images", images);
    var m := [TextPart("message", message)];
    var s := SessionPart(sessionId);
    assert DiagnoseParts(images, message, sessionId) == f + m + s;
    ValuesOfThree(f, m, s, name);
    FilePartsValues("images", images, name);
    assert TextValues(f, name) == [] && FileValues(f, name) == (if name == "images" then images else []);
    ValuesOfOne(m[0], name);
    assert FileValues(m, name) == [];
    SessionPartValues(sessionId, name);
  }

  /** A server reading the diagnosis body back gets every image in order, the
      message once, and the session id exactly when it is non-empty. */
  lemma DiagnosePartsReadBack(images: seq<FileHandle>, message: string, sessionId: Nullish<string>)
    ensures TextValues(DiagnoseParts(images, message, sessionId), "message") == [message]
    ensures TextValues(DiagnoseParts(images, message, sessionId), "sessionId") ==
            if Present(sessionId) then [sessionId.value] else []
    ensures FileValues(DiagnoseParts(images, message, sessionId), "images") == images
  {
    DiagnosePartsRead(images, message, sessionId, "message");
    DiagnosePartsRead(images, message, sessionId, "sessionId");
    DiagnosePartsRead(images, message, sessionId, "images");
  }

  /** `register(name, email, password)`: JSON, and no bearer header. */
  function RegisterRequest(ctx: Context, name: string, email: string, password: string): (r: Request)
    ensures r.verb == Post && r.url == BaseUrl(ctx.baseUrlSetting) + "/auth/register"
    ensures r.headers == JsonContentType && "Authorization" !in r.headers
  {
    Request(Post, BaseUrl(ctx.baseUrlSetting) + "/auth/register", JsonContentType,
            Json([StringField("name", name), StringField("email", email), StringField("password", password)]))
  }

  /** `login(email, password)`: JSON, and no bearer header. */
  function LoginRequest(ctx: Context, email: string, password: string): (r: Request)
    ensures r.verb == Post && r.url == BaseUrl(ctx.baseUrlSetting) + "/auth/login"
    ensures r.headers == JsonContentType && "Authorization" !in r.headers
  {
    Request(Post, BaseUrl(ctx.baseUrlSetting) + "/auth/login", JsonContentType,
            Json([StringField("email", email), StringField("password", password)]))
  }

  /** `sendChatMessage(message, images, sessionId)`: a server reading the
      body back gets the message, the session id when one is set, and the
      images in order, and nothing under any other name. */
  function ChatRequest(ctx: Context, message: string, images: Nullish<seq<FileHandle>>, sessionId: Nullish<string>): (r: Request)
    ensures r.verb == Post && r.url == BaseUrl(ctx.baseUrlSetting) + "/chat"
    ensures r.headers.Keys <= {"Authorization"} && CarriesToken(r.headers, ctx.token)
    ensures r.body.Form?
    ensures TextValues(r.body.parts, "message") == [message]
    ensures TextValues(r.body.parts, "sessionId") == if Present(sessionId) then [sessionId.value] else []
    ensures FileValues(r.body.parts, "images") == images.Or([])
    ensures forall name :: name != "message" && name != "sessionId" ==> TextValues(r.body.parts, name) == []
    ensures forall name :: name != "images" ==> FileValues(r.body.parts, name) == []
  {
    var parts := ChatParts(message, images, sessionId);
    assert forall name :: name != "message" && name != "sessionId" ==> TextValues(parts, name) == [] by {
      forall name | name != "message" && name != "sessionId" {
        ChatPartsRead(message, images, sessionId, name);
      }
    }
    assert forall name :: name != "images" ==> FileValues(parts, name) == [] by {
      forall name | name != "images" {
        ChatPartsRead(message, images, sessionId, name);
      }
    }
    ChatPartsReadBack(message, images, sessionId);
    Request(Post, BaseUrl(ctx.baseUrlSetting) + "/chat", AuthHeader(ctx.token), Form(parts))
  }

  /** `analyzeCropImages(images, userMessage, sessionId)`: a server reading
      the body back gets the images in order, the message, and the session
      id when one is set, and nothing under any other name. */
  function DiagnoseRequest(ctx: Context, images: seq<FileHandle>, message: string, sessionId: Nullish<string>): (r: Request)
    ensures r.verb == Post && r.url == BaseUrl(ctx.baseUrlSetting) + "/diagnose"
    ensures r.headers.Keys <= {"Authorization"} && CarriesToken(r.headers, ctx.token)
    ensures r.body.Form?
    ensures FileValues(r.body.parts, "images") == images
    ensures TextValues(r.body.parts, "message") == [message]
    ensures TextValues(r.body.parts, "sessionId") == if Present(sessionId) then [sessionId.value] else []
    ensures forall name :: name != "message" && name != "sessionId" ==> TextValues(r.body.parts, name) == []
    ensures forall name :: name != "images" ==> FileValues(r.body.parts, name) == []
  {
    var parts := DiagnoseParts(images, message, sessionId);
    assert forall name :: name != "message" && name != "sessionId" ==> TextValues(parts, name) == [] by {
      forall name | name != "message" && name != "sessionId" {
        DiagnosePartsRead(images, message, sessionId, name);
      }
    }
    assert forall name :: name != "images" ==> FileValues(parts, name) == [] by {
      forall name | name != "images" {
        DiagnosePartsRead(images, message, sessionId, name);
      }
    }
    DiagnosePartsReadBack(images, message, sessionId);
    Request(Post, BaseUrl(ctx.baseUrlSetting) + "/diagnose", AuthHeader(ctx.token), Form(parts))
  }

  /** `transcribeAudio(audioBlob)`: a server reading the body back gets the
      recording, under the name `audio` and the file name `recording.webm`,
      and no text or file under any name. */
  function TranscribeRequest(ctx: Context, audio: Blob): (r: Request)
    ensures r.verb == Post && r.url == BaseUrl(ctx.baseUrlSetting) + "/transcribe"
    ensures r.headers.Keys <= {"Authorization"} && CarriesToken(r.headers, ctx.token)
    ensures r.body.Form?
    ensures AudioValues(r.body.parts, "audio") == [(audio, RecordingFileName)]
    ensures forall name :: name != "audio" ==> AudioValues(r.body.parts, name) == []
    ensures forall name :: TextValues(r.body.parts, name) == [] && FileValues(r.body.parts, name) == []
  {
    var part := BlobPart("audio", audio, RecordingFileName);
    assert forall name :: && TextValues([part], name) == [] && FileValues([part], name) == []
                          && AudioValues([part], name) == (if name == "audio" then [(audio, RecordingFileName)] else []) by {
      forall name {
        ValuesOfOne(part, name);
      }
    }
    Request(Post, BaseUrl(ctx.baseUrlSetting) + "/transcribe", AuthHeader(ctx.token), Form([part]))
  }

  /** `getSessions()` */
  function SessionsRequest(ctx: Context): (r: Request)
    ensures r.verb == Get && r.url == BaseUrl(ctx.baseUrlSetting) + "/sessions"
    ensures r.headers.Keys <= {"Authorization"} && CarriesToken(r.headers, ctx.token)
    ensures r.body == NoBody
  {
    Request(Get, BaseUrl(ctx.baseUrlSetting) + "/sessions", map[] + AuthHeader(ctx.token), NoBody)
  }

  /** `saveChatSession(sessionId, messages)`: the bearer header, when there is
      one, is added to the JSON content type. */
  function SaveSessionRequest(ctx: Context, sessionId: string, messages: seq<Message>): (r: Request)
    ensures r.verb == Post && r.url == BaseUrl(ctx.baseUrlSetting) + "/sessions"
    ensures r.headers.Keys == {"Content-Type"} + AuthHeader(ctx.token).Keys
    ensures r.headers["Content-Type"] == "application/json"
    ensures CarriesToken(r.headers, ctx.token)
    ensures r.body == Json([StringField("sessionId", sessionId), MessagesField("messages", messages)])
  {
    Request(Post, BaseUrl(ctx.baseUrlSetting) + "/sessions", JsonContentType + AuthHeader(ctx.token),
            Json([StringField("sessionId", sessionId), MessagesField("messages", messages)]))
  }
}
