/** The records shared by every part of the chat client (the interfaces of
    src/types/index.ts), together with the few JavaScript value notions the
    client's logic depends on: `undefined`/`null` and truthiness. */
module Types {

  /** Optionality that belongs to the model itself rather than to a
      JavaScript value (a step that may or may not emit something). */
  datatype Option<+T> = None | Some(value: T)

  /** A JavaScript value that may be absent. `??` and `?.` treat `undefined`
      and `null` alike; an optional property that is not set reads `undefined`. */
  datatype Nullish<+T> = Undefined | Null | Defined(value: T) {

    /** The value of `this ?? default`. */
    function Or(default: T): T {
      match this
      case Defined(v) => v
      case _ => default
    }
  }

  /** A JSON scalar as far as JavaScript truthiness is concerned. Numbers are
      integers here; arrays and objects are all truthy and carry no payload. */
  datatype JsValue = JsUndefined | JsNull | JsBool(b: bool) | JsNumber(n: int) | JsString(s: string) | JsObject

  /** JavaScript's `!!v`. */
  predicate Truthy(v: JsValue) {
    match v
    case JsUndefined => false
    case JsNull => false
    case JsBool(b) => b
    case JsNumber(n) => n != 0
    case JsString(s) => s != ""
    case JsObject => true
  }

  /** A string used as a condition (`if (s)`): truthy exactly when present and non-empty. */
  predicate Present(s: Nullish<string>) {
    s.Defined? && s.value != ""
  }

  /** `Message.role` */
  datatype Role = User | Assistant

  /** A browser `File`: an identity, its name and its MIME type. */
  datatype FileHandle = FileHandle(key: nat, name: string, mimeType: string)

  /** `UploadedImage`: a staged file with its generated id and object-URL preview. */
  datatype UploadedImage = UploadedImage(id: string, file: FileHandle, preview: string, name: string)

  /** `Message`; `timestamp` is the instant `new Date()` read, in milliseconds. */
  datatype Message = Message(
    id: string,
    role: Role,
    content: string,
    images: Nullish<seq<UploadedImage>>,
    timestamp: int,
    isLoading: Nullish<bool>)

  /** `msg.isLoading` used as a condition. */
  predicate Loading(m: Message) {
    m.isLoading == Defined(true)
  }

  /** `ApiResponse<T>`: the envelope every transport operation returns. */
  datatype ApiResponse<+T> = ApiResponse(data: Nullish<T>, error: Nullish<string>, success: bool)

  /** `{ success: false, error }` */
  function Failure<T>(error: string): ApiResponse<T> {
    ApiResponse(Undefined, Defined(error), false)
  }

  /** `{ success: true, data }` */
  function Succeeded<T>(data: Nullish<T>): ApiResponse<T> {
    ApiResponse(data, Undefined, true)
  }

  /** A piece of recorded audio as `dataavailable` delivers it. */
  datatype Chunk = Chunk(key: nat, size: nat)

  /** `new Blob(parts, { type })` */
  datatype Blob = Blob(parts: seq<Chunk>, mimeType: string)

  /** The files behind a sequence of staged images, in order (`images.map(img => img.file)`). */
  function Files(images: seq<UploadedImage>): (files: seq<FileHandle>)
    ensures |files| == |images|
    ensures forall k :: 0 <= k < |images| ==> files[k] == images[k].file
  {
    seq(|images|, k requires 0 <= k < |images| => images[k].file)
  }

  /** The ids occurring in a sequence of messages. */
  predicate IdOccurs(log: seq<Message>, id: string) {
    exists k :: 0 <= k < |log| && log[k].id == id
  }

  /** No two messages share an id, as freshly generated uuids guarantee. */
  predicate UniqueMessageIds(log: seq<Message>) {
    forall i, j :: 0 <= i < j < |log| ==> log[i].id != log[j].id
  }
}
