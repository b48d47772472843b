/** The interface of the FMRest library the client is built on, which is not part of this
    model: HTTP methods, headers, query items, its error type, the server configuration,
    request bodies and the transport's reply. */
module Rest {
  import opened Wrappers
  import Json

  datatype HttpMethod = Get | Post | Patch | Delete

  datatype Header = Header(field: string, value: string)

  /** `URLQueryItem`: the value may be absent. */
  datatype QueryItem = QueryItem(name: string, value: Option<string>)

  /** `FMRest.APIError`, as far as the client raises or passes it on. */
  datatype APIError =
    | ApiError(message: string)
    | AuthTypeError(message: string)
    | ResponseError(message: string)
    | Unknown(description: string)

  /** `DataAPI.Server.Config`: the URL version segment, scheme and root path. */
  datatype Config = Config(version: string, scheme: string, rootPath: string)

  /** `Config()` with every default. */
  const DefaultConfig: Config := Config("/vLatest", "https", "/fmi/data")

  /** What a builder reads off a server: its host and configuration. */
  datatype ServerView = ServerView(host: string, config: Config)

  /** `FMRest.ContainerFile`; its byte encoding is not modelled. */
  datatype ContainerFile = ContainerFile(fileName: string, data: seq<int>)

  /** A request body: an encoded JSON object, or a file for a container field. */
  datatype Body = JsonBody(fields: map<string, Json.Value>) | FileBody(file: ContainerFile)

  /** What the transport hands back for a sent request: a transport error, or an envelope with
      an optional token header and an optional payload (`FMRest.Response<T>`). */
  datatype Reply<T> =
    | TransportFailure(error: APIError)
    | Envelope(authToken: Option<string>, response: Option<T>)
}
