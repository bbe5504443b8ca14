/** The request and response shapes exchanged with the axios wrapper. */
module Http {
  import opened Wrappers
  import opened Endpoints

  datatype Verb = Get | Post | Put | Delete | Patch

  type Headers = map<string, string>

  /** An axios request config: the panel's own `authRequired` flag, the headers, and every
      other option (`params`, `responseType`, ...) that the wrapper passes through. */
  datatype Config = Config(authRequired: Option<bool>, headers: Option<Headers>, rest: map<string, string>)

  /** `{}`, the default config of every verb helper. */
  const EmptyConfig := Config(None, None, map[])

  /** `{ authRequired: true }` */
  const AuthConfig := Config(Some(true), None, map[])

  /** `{ authRequired: true, headers: { 'Content-Type': 'multipart/form-data' } }` */
  const MultipartAuthConfig := Config(Some(true), Some(map["Content-Type" := "multipart/form-data"]), map[])

  /** JavaScript truthiness of an optional flag. */
  predicate FlagSet(b: Option<bool>)
  {
    b == Some(true)
  }

  /** A file the user picked; its contents are not modelled. */
  datatype FileRef = FileRef(name: string)

  datatype JsonValue = JStr(s: string) | JBool(b: bool)
  datatype PartValue = TextPart(text: string) | FilePart(file: FileRef)

  /** A request body: none, a JSON object (keys in order), or `FormData` entries in append order. */
  datatype Body = NoBody | Json(fields: seq<(string, JsonValue)>) | Multipart(parts: seq<(string, PartValue)>)

  /** What a screen hands to a verb helper of the axios wrapper. */
  datatype Call = Call(verb: Verb, endpoint: Endpoint, body: Body, config: Config)

  /** A rejected request: `error.response.status` and `error.response.data.message`, both
      absent for a transport failure. */
  datatype HttpError = HttpError(status: Option<int>, message: Option<string>)

  /** The part of `res.data` a success message is read from. */
  datatype MessageData = MessageData(message: Option<string>)

  /** The outcome of an awaited request. */
  datatype Response<T> = Ok(data: T) | Failed(error: HttpError)
}
