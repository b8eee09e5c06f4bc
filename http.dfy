/**
  Values the attendance client exchanges with the web service: optional
  values, results of a call, the JSON scalars it puts in request bodies, and
  the requests themselves. The transport (sockets, cookies, TLS) is not part
  of the model; a request is the value that would be handed to it.
 */
module Http {

  datatype Option<+T> = None | Some(value: T)

  /** The outcome of one call to the service: a value, or the error it raised. */
  datatype Result<+T, +E> = Ok(value: T) | Err(error: E)

  /** The JSON scalars that occur in the bodies the client sends. */
  datatype Json = JInt(i: int) | JStr(s: string)

  /**
    The header names the client sends. The client only ever uses these six,
    so a header dictionary is keyed by them; HeaderText is the name as written.
   */
  datatype HeaderName = Accept | ContentType | Origin | Referer | UserAgentHeader | TenantIdHeader

  function HeaderText(h: HeaderName): string {
    match h
    case Accept => "Accept"
    case ContentType => "Content-Type"
    case Origin => "Origin"
    case Referer => "Referer"
    case UserAgentHeader => "User-Agent"
    case TenantIdHeader => "tenantid"
  }

  /** Distinct names are written differently, so keying by name loses nothing. */
  lemma HeaderTextInjective(a: HeaderName, b: HeaderName)
    ensures HeaderText(a) == HeaderText(b) ==> a == b
  {
  }

  /** The keys of the JSON bodies the client sends, and their text. */
  datatype Field =
    | Email | Password
    | Type | RequestTypeId | StartDateOrTime | EndDateOrTime | SubType | Description

  function FieldText(f: Field): string {
    match f
    case Email => "email"
    case Password => "password"
    case Type => "type"
    case RequestTypeId => "requestTypeId"
    case StartDateOrTime => "startDateOrTime"
    case EndDateOrTime => "endDateOrTime"
    case SubType => "subType"
    case Description => "description"
  }

  lemma FieldTextInjective(a: Field, b: Field)
    ensures FieldText(a) == FieldText(b) ==> a == b
  {
  }

  type Headers = map<HeaderName, string>

  /** A JSON object: the `json=` argument of a POST. */
  type Body = map<Field, Json>

  datatype HttpRequest =
    | Post(url: string, headers: Headers, body: Body)
    | Get(url: string, headers: Headers)

  /** The only status the client treats as success. */
  const StatusOk: int := 200

  const UserAgent: string :=
    "Mozilla/5.0 (X11; Linux x86_64) AppleWebKit/537.36 (KHTML, like Gecko) Chrome/132.0.0.0 Safari/537.36"

  const AcceptAny: string := "application/json, text/plain, */*"

  const JsonContentType: string := "application/json;charset=UTF-8"
}
