/**
  The session client of the attendance service (nanowatch.py, class
  NanoWatchClient). The client keeps a base URL and, after a successful login,
  the tenant identifier read from the user's profile; it shapes the three
  requests it sends (login, profile, request update). The HTTP exchange itself
  is replaced by the reply the service gives, passed in as a parameter.
 */
module Client {
  import opened Http

  const DefaultBaseUrl: string := "https://app.nanowatch.org"

  /** `s.rstrip('/')`: drops every trailing slash and nothing else. */
  function StripTrailingSlashes(s: string): (r: string)
    ensures r <= s
    ensures r == [] || r[|r| - 1] != '/'
    ensures forall i :: |r| <= i < |s| ==> s[i] == '/'
  {
    if |s| > 0 && s[|s| - 1] == '/' then StripTrailingSlashes(s[..|s| - 1]) else s
  }

  /** The three properties above pick out exactly one string: the one stripping returns. */
  lemma {:induction false} StripTrailingSlashesUnique(s: string, r: string)
    requires r <= s
    requires r == [] || r[|r| - 1] != '/'
    requires forall i :: |r| <= i < |s| ==> s[i] == '/'
    ensures r == StripTrailingSlashes(s)
  {
    var q := StripTrailingSlashes(s);
    // Neither can be shorter: its last character would be one of the
    // other's trailing slashes.
    if |r| > |q| {
      assert false;
    } else if |q| > |r| {
      assert false;
    }
  }

  /** A stripped URL is left alone by a second strip. */
  lemma StripTrailingSlashesIdempotent(s: string)
    ensures StripTrailingSlashes(StripTrailingSlashes(s)) == StripTrailingSlashes(s)
  {
    var r := StripTrailingSlashes(s);
    StripTrailingSlashesUnique(r, r);
  }

  /** A profile as far as the client reads it: the optional `tenantId` entry. */
  datatype Profile = Profile(tenantId: Option<string>)

  /** What the service answers to a login: the status and the truth of `success`. */
  datatype LoginReply = LoginReply(status: int, success: bool)

  datatype ProfileReply = ProfileReply(status: int, profile: Profile)

  datatype ClientError =
    | LoginFailed(status: int)
    | LoginUnsuccessful
    | ProfileFailed(status: int)
    | UpdateFailed(status: int)

  /** The fields of one attendance or leave record, before it becomes a JSON body. */
  datatype UserRequest = UserRequest(
    requestType: int,
    requestTypeId: string,
    start: string,
    end: string,
    subType: int,
    description: string)

  const PayloadKeys: set<Field> :=
    {Type, RequestTypeId, StartDateOrTime, EndDateOrTime, SubType, Description}

  /** The update body: six fixed keys, start and end passed through as given. */
  function Payload(q: UserRequest): (b: Body)
    ensures b.Keys == PayloadKeys
  {
    map[
      Type := JInt(q.requestType),
      RequestTypeId := JStr(q.requestTypeId),
      StartDateOrTime := JStr(q.start),
      EndDateOrTime := JStr(q.end),
      SubType := JInt(q.subType),
      Description := JStr(q.description)]
  }

  /** The service's view of an update body: the record it describes, if well formed. */
  function ReadPayload(b: Body): (r: Option<UserRequest>)
  {
    if b.Keys == PayloadKeys
       && b[Type].JInt? && b[RequestTypeId].JStr?
       && b[StartDateOrTime].JStr? && b[EndDateOrTime].JStr?
       && b[SubType].JInt? && b[Description].JStr?
    then Some(UserRequest(
      b[Type].i, b[RequestTypeId].s,
      b[StartDateOrTime].s, b[EndDateOrTime].s,
      b[SubType].i, b[Description].s))
    else None
  }

  /** Every field of the record reaches the service unchanged. */
  lemma {:induction false} PayloadRoundTrip(q: UserRequest)
    ensures ReadPayload(Payload(q)) == Some(q)
  {
    var b := Payload(q);
    assert Type in b && RequestTypeId in b && StartDateOrTime in b;
    assert EndDateOrTime in b && SubType in b && Description in b;
  }

  /** A body the service reads as q is exactly the body the client writes for q. */
  lemma {:induction false} ReadPayloadIsWritten(b: Body, q: UserRequest)
    requires ReadPayload(b) == Some(q)
    ensures Payload(q) == b
  {
    var p := Payload(q);
    assert p.Keys == b.Keys;
    forall k | k in p ensures p[k] == b[k] {
      assert k in PayloadKeys;
    }
  }

  function LoginUrl(baseUrl: string): string { baseUrl + "/account/login" }

  function ProfileUrl(baseUrl: string): string { baseUrl + "/api/v2/account/GetMyProfile" }

  function UpdateUrl(baseUrl: string): string { baseUrl + "/api/v2/userrequest/update" }

  function LoginPost(baseUrl: string, email: string, password: string): HttpRequest
  {
    Post(
      LoginUrl(baseUrl),
      map[
        Accept := AcceptAny,
        ContentType := JsonContentType,
        Origin := baseUrl,
        Referer := baseUrl + "/Account?ReturnUrl=%2F",
        UserAgentHeader := UserAgent],
      map[Email := JStr(email), Password := JStr(password)])
  }

  function ProfileGet(baseUrl: string): HttpRequest
  {
    Get(
      ProfileUrl(baseUrl),
      map[Accept := AcceptAny, Referer := baseUrl + "/", UserAgentHeader := UserAgent])
  }

  /** The headers of an update before any tenant is attached. */
  function BaseUpdateHeaders(baseUrl: string): Headers
  {
    map[
      Accept := AcceptAny,
      ContentType := JsonContentType,
      Origin := baseUrl,
      Referer := baseUrl + "/",
      UserAgentHeader := UserAgent]
  }

  /** Python truthiness of the stored tenant: present and not the empty string. */
  predicate Truthy(tenantId: Option<string>) {
    tenantId.Some? && tenantId.value != ""
  }

  /**
    The headers of an update: the `tenantid` header is there exactly when the
    stored tenant is truthy, and carries it; the other headers do not depend on it.
   */
  function UpdateHeaders(baseUrl: string, tenantId: Option<string>): (h: Headers)
    ensures TenantIdHeader in h <==> Truthy(tenantId)
    ensures Truthy(tenantId) ==> h[TenantIdHeader] == tenantId.value
    ensures h - {TenantIdHeader} == BaseUpdateHeaders(baseUrl)
  {
    var h := BaseUpdateHeaders(baseUrl);
    if Truthy(tenantId) then h[TenantIdHeader := tenantId.value] else h
  }

  /** The POST an update of q sends from a session with this base URL and tenant. */
  function UpdatePost(baseUrl: string, tenantId: Option<string>, q: UserRequest): HttpRequest
  {
    Post(UpdateUrl(baseUrl), UpdateHeaders(baseUrl, tenantId), Payload(q))
  }

  /** What update_user_request makes of the service's reply: success on 200 only. */
  function UpdateResult(status: int): (r: Result<(), ClientError>)
    ensures r.Ok? <==> status == StatusOk
    ensures r.Err? ==> r.error == UpdateFailed(status)
  {
    if status == StatusOk then Ok(()) else Err(UpdateFailed(status))
  }

  class NanoWatchClient {
    var baseUrl: string
    var tenantId: Option<string>

    /** `__init__`: the base URL, by default DefaultBaseUrl, loses its trailing slashes; no tenant yet. */
    constructor (baseUrl: string := DefaultBaseUrl)
      ensures this.baseUrl == StripTrailingSlashes(baseUrl)
      ensures this.baseUrl == [] || this.baseUrl[|this.baseUrl| - 1] != '/'
      ensures tenantId == None
    {
      this.baseUrl := StripTrailingSlashes(baseUrl);
      tenantId := None;
    }

    /**
      `get_profile`: one GET; the profile when the service answers 200,
      ProfileFailed otherwise. The session is left as it was.
     */
    method GetProfile(reply: ProfileReply) returns (sent: HttpRequest, r: Result<Profile, ClientError>)
      ensures sent == ProfileGet(baseUrl)
      ensures r.Ok? <==> reply.status == StatusOk
      ensures r.Ok? ==> r.value == reply.profile
      ensures r.Err? ==> r.error == ProfileFailed(reply.status)
    {
      sent := ProfileGet(baseUrl);
      if reply.status != StatusOk {
        return sent, Err(ProfileFailed(reply.status));
      }
      r := Ok(reply.profile);
    }

    /**
      `login`: the login POST; on a 200 whose `success` is true, the profile
      GET; on a profile that names a tenant, the tenant is stored. Any failure
      ends the call with its error and leaves the tenant as it was.
     */
    method Login(email: string, password: string, loginReply: LoginReply, profileReply: ProfileReply)
      returns (sent: seq<HttpRequest>, r: Result<(), ClientError>)
      modifies this`tenantId
      ensures loginReply.status != StatusOk ==> r == Err(LoginFailed(loginReply.status))
      ensures loginReply.status == StatusOk && !loginReply.success ==> r == Err(LoginUnsuccessful)
      ensures loginReply.status == StatusOk && loginReply.success && profileReply.status != StatusOk
              ==> r == Err(ProfileFailed(profileReply.status))
      ensures r.Ok? <==> loginReply.status == StatusOk && loginReply.success && profileReply.status == StatusOk
      ensures sent == [LoginPost(baseUrl, email, password)]
                      + (if loginReply.status == StatusOk && loginReply.success then [ProfileGet(baseUrl)] else [])
      ensures tenantId == if r.Ok? && profileReply.profile.tenantId.Some?
                          then profileReply.profile.tenantId else old(tenantId)
    {
      sent := [LoginPost(baseUrl, email, password)];
      if loginReply.status != StatusOk {
        return sent, Err(LoginFailed(loginReply.status));
      }
      if !loginReply.success {
        return sent, Err(LoginUnsuccessful);
      }
      var profileSent, profile := GetProfile(profileReply);
      sent := sent + [profileSent];
      if profile.Err? {
        return sent, Err(profile.error);
      }
      if profile.value.tenantId.Some? {
        tenantId := profile.value.tenantId;
      }
      r := Ok(());
    }

    /**
      `update_user_request`: builds the headers (adding `tenantid` when a
      truthy tenant is stored), the six-key body with start and end passed
      through, sends one POST and fails with UpdateFailed on any status but 200.
      The service's status is the parameter replyStatus.
     */
    method UpdateUserRequest(
      requestType: int, start: string, end: string, replyStatus: int,
      subType: int := 0, description: string := "", requestTypeId: string := "")
      returns (sent: HttpRequest, r: Result<(), ClientError>)
      ensures sent == UpdatePost(baseUrl, tenantId,
                       UserRequest(requestType, requestTypeId, start, end, subType, description))
      ensures r == UpdateResult(replyStatus)
    {
      var headers := map[
        Accept := AcceptAny,
        ContentType := JsonContentType,
        Origin := baseUrl,
        Referer := baseUrl + "/",
        UserAgentHeader := UserAgent];
      if Truthy(tenantId) {
        headers := headers[TenantIdHeader := tenantId.value];
      }
      var payload := map[
        Type := JInt(requestType),
        RequestTypeId := JStr(requestTypeId),
        StartDateOrTime := JStr(start),
        EndDateOrTime := JStr(end),
        SubType := JInt(subType),
        Description := JStr(description)];
      sent := Post(baseUrl + "/api/v2/userrequest/update", headers, payload);
      if replyStatus != StatusOk {
        return sent, Err(UpdateFailed(replyStatus));
      }
      r := Ok(());
    }
  }
}
