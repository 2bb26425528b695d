/**
  The inbound authorization request of the custom identity provider and
  the two extraction steps of serverless/src/functions/sftp_authorize.py:
  username and server id from the path parameters, and the optional
  `Password` header.
 */
module Request {
  import opened Values

  /** One section of the event: parameter name to (possibly null) string. */
  type Params = map<string, Nullable<string>>

  /** The parts of the event the authorizer reads. Each section is absent
      from the event, present as JSON null, or present as an object. */
  datatype Event = Event(pathParameters: Option<Nullable<Params>>, headers: Option<Nullable<Params>>)

  datatype ServerUser = ServerUser(username: string, serverId: string)

  const EventParametersNotSet: string := "Event parameters not set"
  const ParametersNotSet: string := "Username and/or Server ID parameters not set"
  const ParametersEmpty: string := "Username and/or Server ID parameters are empty"
  /** The message of the KeyError for reading a missing `headers` key. */
  const HeadersKeyError: string := "'headers'"

  /** Both sections are keys of the event. */
  predicate HasSections(e: Event) {
    e.pathParameters.Some? && e.headers.Some?
  }

  /** The path parameters are an object holding non-null `username` and
      `serverId` entries. */
  predicate HasServerUser(e: Event) {
    && HasSections(e)
    && e.pathParameters.value.Value?
    && "username" in e.pathParameters.value.value
    && "serverId" in e.pathParameters.value.value
    && e.pathParameters.value.value["username"].Value?
    && e.pathParameters.value.value["serverId"].Value?
  }

  /** Username and server id of the event, with sftp_authorize.py's three shape
      checks in order: both sections present, both keys present, neither
      value null. A null path-parameter section makes the membership test
      itself fail with a TypeError. Neither value is checked for being
      empty, and the server id is not verified against anything. */
  function ExtractServerUser(e: Event): (r: Result<ServerUser>)
    ensures r.Ok? <==> HasServerUser(e)
    ensures r.Ok? ==> r.value.username == e.pathParameters.value.value["username"].value
    ensures r.Ok? ==> r.value.serverId == e.pathParameters.value.value["serverId"].value
    ensures !HasSections(e) ==> r == Err(Domain(EventParametersNotSet))
    ensures HasSections(e) && e.pathParameters.value.Null? ==> r == Err(Unexpected(NoneNotIterable))
    ensures r.Err? && r.fault.Unexpected? ==> e.pathParameters == Some(Null)
    ensures HasSections(e) && e.pathParameters.value.Value?
            && ("username" !in e.pathParameters.value.value || "serverId" !in e.pathParameters.value.value)
            ==> r == Err(Domain(ParametersNotSet))
    ensures HasSections(e) && e.pathParameters.value.Value?
            && "username" in e.pathParameters.value.value && "serverId" in e.pathParameters.value.value
            && (e.pathParameters.value.value["username"].Null? || e.pathParameters.value.value["serverId"].Null?)
            ==> r == Err(Domain(ParametersEmpty))
  {
    if e.pathParameters.None? || e.headers.None? then
      Err(Domain(EventParametersNotSet))
    else if e.pathParameters.value.Null? then
      Err(Unexpected(NoneNotIterable))
    else
      var p := e.pathParameters.value.value;
      if "username" !in p || "serverId" !in p then
        Err(Domain(ParametersNotSet))
      else if p["username"].Null? || p["serverId"].Null? then
        Err(Domain(ParametersEmpty))
      else
        Ok(ServerUser(p["username"].value, p["serverId"].value))
  }

  /** The `Password` header as the handler sees it: the empty string when
      the header is absent, otherwise the header's value unchanged, which
      may be null. A null header section makes the membership test fail
      with a TypeError, and an event without a header section (which the
      handler has already rejected) fails with a KeyError. A missing
      `Password` header is never a domain error. */
  function NormalizePassword(e: Event): (r: Result<Nullable<string>>)
    ensures r.Ok? <==> e.headers.Some? && e.headers.value.Value?
    ensures r.Err? ==> r.fault.Unexpected?
    ensures e.headers == Some(Null) ==> r == Err(Unexpected(NoneNotIterable))
    ensures r.Ok? && "Password" !in e.headers.value.value ==> r.value == Value("")
    ensures r.Ok? && "Password" in e.headers.value.value ==> r.value == e.headers.value.value["Password"]
  {
    match e.headers
    case None => Err(Unexpected(HeadersKeyError))
    case Some(Null) => Err(Unexpected(NoneNotIterable))
    case Some(Value(h)) => Ok(if "Password" in h then h["Password"] else Value(""))
  }

  /** The event the transfer service sends for a user on a server, with
      the `Password` header absent (None) or carrying the given value. */
  function MakeEvent(username: string, serverId: string, password: Option<Nullable<string>>): (e: Event)
    ensures HasServerUser(e)
    ensures e.headers.Some? && e.headers.value.Value?
  {
    var path := map["username" := Value(username), "serverId" := Value(serverId)];
    var headers := match password
      case None => map[]
      case Some(p) => map["Password" := p];
    Event(Some(Value(path)), Some(Value(headers)))
  }

  /** Extraction undoes MakeEvent: username and server id come back
      unchanged (the empty string included), and an absent header reads
      as the empty password while a present one reads as its value. */
  lemma RequestRoundTrip(username: string, serverId: string, password: Option<Nullable<string>>)
    ensures ExtractServerUser(MakeEvent(username, serverId, password)) == Ok(ServerUser(username, serverId))
    ensures NormalizePassword(MakeEvent(username, serverId, password))
            == Ok(if password.Some? then password.value else Value(""))
  {
  }

  /** An empty username is extracted like any other: the handler only
      rejects a missing or null one. */
  lemma EmptyUsernameAccepted(serverId: string)
    ensures ExtractServerUser(MakeEvent("", serverId, None)).Ok?
    ensures ExtractServerUser(MakeEvent("", serverId, None)).value.username == ""
  {
  }
}
