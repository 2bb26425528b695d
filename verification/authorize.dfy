/**
  The authorization handler of serverless/src/functions/sftp_authorize.py:
  it runs the extraction, secret lookup, credential check and grant
  assembly in sftp_authorize.py's order, builds the service result step by step,
  and classifies the outcome as 200, 400 or 500.

  sftp_authorize.py accumulates the service result in one module-level dict that
  outlives the call, so a `PublicKeys` entry from an earlier key-flow
  request leaks into later password-flow responses of the same process.
  Here the service result is a fresh value per call, filled in the same
  order, so the partial result at every failure point is well defined.
 */
module Authorize {
  import opened Values
  import opened Request
  import opened Credentials

  /** The service result dict: which of its four entries are set. */
  datatype ServiceResult = ServiceResult(
    publicKeys: Option<seq<string>>,
    role: Option<string>,
    policy: Option<string>,
    homeDirectory: Option<string>)

  const Empty: ServiceResult := ServiceResult(None, None, None, None)

  /** The JSON keys of a service result. */
  function Keys(r: ServiceResult): set<string> {
    (if r.publicKeys.Some? then {"PublicKeys"} else {})
    + (if r.role.Some? then {"Role"} else {})
    + (if r.policy.Some? then {"Policy"} else {})
    + (if r.homeDirectory.Some? then {"HomeDirectory"} else {})
  }

  /** A request either is granted with a complete service result, or fails
      with a fault and the service result as far as it had been built. */
  datatype Outcome = Granted(result: ServiceResult) | Failed(fault: Fault, partial: ServiceResult)

  /** The credential test, stated per header value: a null password passes
      unchecked, the empty password needs a stored public key, and any
      other password must equal the stored one. */
  predicate CredentialsAccepted(password: Nullable<string>, secret: Secret) {
    match password
    case Null => true
    case Value(p) =>
      if p == "" then "PublicKey" in secret
      else "Password" in secret && secret["Password"] == p
  }

  /** The user's lookup answer for a request that passed extraction. */
  function StoredLookup(stage: string, resolve: string -> Lookup, e: Event): Lookup
    requires HasServerUser(e)
  {
    resolve(SecretPath(stage, ExtractServerUser(e).value.username))
  }

  /** When a request is authorized: well-formed, with a readable header
      section, a secret on file, accepted credentials and a home
      directory. */
  predicate Admitted(stage: string, resolve: string -> Lookup, e: Event) {
    && HasServerUser(e)
    && e.headers.value.Value?
    && StoredLookup(stage, resolve, e).Found?
    && CredentialsAccepted(NormalizePassword(e).value, StoredLookup(stage, resolve, e).secret)
    && "HomeDirectory" in StoredLookup(stage, resolve, e).secret
  }

  /** The decision for one request, in sftp_authorize.py's order: username and
      server id, password header, secret lookup, exactly one credential
      strategy, then Role/Policy (recorded before) the required home
      directory. */
  function Authorize(stage: string, resolve: string -> Lookup, e: Event): (o: Outcome)
    ensures o.Granted? <==> Admitted(stage, resolve, e)
    ensures o.Granted? ==> Keys(o.result) == {"Role", "Policy", "HomeDirectory"}
                                            + (if NormalizePassword(e).value == Value("") then {"PublicKeys"} else {})
    ensures o.Failed? && o.partial != Empty ==> o.fault == Domain(NoHomeDirectory)
  {
    match ExtractServerUser(e)
    case Err(f) => Failed(f, Empty)
    case Ok(user) =>
      match NormalizePassword(e)
      case Err(f) => Failed(f, Empty)
      case Ok(password) =>
        match FetchSecret(stage, resolve, user.username)
        case Err(f) => Failed(f, Empty)
        case Ok(secret) =>
          match Authenticate(SelectStrategy(password), secret)
          case Err(f) => Failed(f, Empty)
          case Ok(keys) =>
            var (role, policy) := RolePolicy(secret);
            var partial := ServiceResult(keys, Some(role), Some(policy), None);
            match HomeDirectory(secret)
            case Err(f) => Failed(f, partial)
            case Ok(home) => Granted(partial.(homeDirectory := Some(home)))
  }

  /** The grant's values: Role and Policy verbatim or empty, the stored
      home directory, and the one stored public key exactly when the
      empty password selected the key flow. */
  lemma GrantContents(stage: string, resolve: string -> Lookup, e: Event)
    requires Authorize(stage, resolve, e).Granted?
    ensures HasServerUser(e) && StoredLookup(stage, resolve, e).Found?
    ensures var secret := StoredLookup(stage, resolve, e).secret;
            Authorize(stage, resolve, e).result == ServiceResult(
              if NormalizePassword(e).value == Value("") then Some([secret["PublicKey"]]) else None,
              Some(FieldOrEmpty(secret, "Role")),
              Some(FieldOrEmpty(secret, "Policy")),
              Some(secret["HomeDirectory"]))
  {
  }

  /** A request that fails extraction is refused before the secrets store
      is consulted: the outcome does not depend on the store at all, and
      nothing has been recorded. */
  lemma MalformedRequestNeverResolves(stage: string, r1: string -> Lookup, r2: string -> Lookup, e: Event)
    requires ExtractServerUser(e).Err?
    ensures Authorize(stage, r1, e) == Authorize(stage, r2, e) == Failed(ExtractServerUser(e).fault, Empty)
  {
  }

  /** The store is consulted at the user's secret path only: two stores
      that agree there give the same outcome. */
  lemma OnlySecretPathConsulted(stage: string, r1: string -> Lookup, r2: string -> Lookup, e: Event)
    requires HasServerUser(e)
    requires r1(SecretPath(stage, ExtractServerUser(e).value.username))
             == r2(SecretPath(stage, ExtractServerUser(e).value.username))
    ensures Authorize(stage, r1, e) == Authorize(stage, r2, e)
  {
  }

  /** A missing secret is the authorizer's own error, raised before any
      credential check and with nothing recorded. */
  lemma MissingSecretStopsBeforeCredentials(stage: string, resolve: string -> Lookup, e: Event)
    requires HasServerUser(e) && e.headers.value.Value?
    requires StoredLookup(stage, resolve, e).NotFound?
    ensures Authorize(stage, resolve, e) == Failed(Domain(SecretNotFound), Empty)
  {
  }

  /** Password flow exclusivity: with a non-empty header the secret's
      `PublicKey` field is never read and no `PublicKeys` entry appears. */
  lemma PasswordFlowIgnoresPublicKey(stage: string, e: Event, s1: Secret, s2: Secret)
    requires HasServerUser(e) && e.headers.value.Value?
    requires NormalizePassword(e).value != Value("")
    requires s1 - {"PublicKey"} == s2 - {"PublicKey"}
    ensures Authorize(stage, _ => Found(s1), e) == Authorize(stage, _ => Found(s2), e)
    ensures Authorize(stage, _ => Found(s1), e).Granted?
            ==> Authorize(stage, _ => Found(s1), e).result.publicKeys == None
  {
    StrategiesReadDisjointFields(SelectStrategy(NormalizePassword(e).value), s1, s2);
    AgreeOutside(s1, s2, "PublicKey", "Role");
    AgreeOutside(s1, s2, "PublicKey", "Policy");
    AgreeOutside(s1, s2, "PublicKey", "HomeDirectory");
  }

  /** Key flow exclusivity: with the empty password the secret's
      `Password` field is never compared, and a grant offers the stored
      key. */
  lemma KeyFlowIgnoresPassword(stage: string, e: Event, s1: Secret, s2: Secret)
    requires HasServerUser(e) && e.headers.value.Value?
    requires NormalizePassword(e).value == Value("")
    requires s1 - {"Password"} == s2 - {"Password"}
    ensures Authorize(stage, _ => Found(s1), e) == Authorize(stage, _ => Found(s2), e)
    ensures Authorize(stage, _ => Found(s1), e).Granted?
            ==> Authorize(stage, _ => Found(s1), e).result.publicKeys == Some([s1["PublicKey"]])
  {
    StrategiesReadDisjointFields(SelectStrategy(NormalizePassword(e).value), s1, s2);
    AgreeOutside(s1, s2, "Password", "Role");
    AgreeOutside(s1, s2, "Password", "Policy");
    AgreeOutside(s1, s2, "Password", "HomeDirectory");
  }

  /** A credential failure takes precedence over a missing home directory
      and leaves the service result empty. */
  lemma CredentialErrorPrecedesHomeDirectory(stage: string, resolve: string -> Lookup, e: Event)
    requires HasServerUser(e) && e.headers.value.Value?
    requires StoredLookup(stage, resolve, e).Found?
    requires !CredentialsAccepted(NormalizePassword(e).value, StoredLookup(stage, resolve, e).secret)
    ensures Authorize(stage, resolve, e).Failed?
    ensures NormalizePassword(e).value == Value("")
            ==> Authorize(stage, resolve, e).fault == Domain(NoPublicKeys)
    ensures NormalizePassword(e).value != Value("") && "Password" !in StoredLookup(stage, resolve, e).secret
            ==> Authorize(stage, resolve, e).fault == Domain(NoPasswordField)
    ensures NormalizePassword(e).value != Value("") && "Password" in StoredLookup(stage, resolve, e).secret
            ==> Authorize(stage, resolve, e).fault == Domain(PasswordMismatch)
    ensures Authorize(stage, resolve, e).partial == Empty
  {
  }

  /** A missing home directory fails the request even after the
      credentials were accepted, and the partial result already holds
      Role and Policy (and the key list in the key flow). */
  lemma MissingHomeDirectoryAfterCredentials(stage: string, resolve: string -> Lookup, e: Event)
    requires HasServerUser(e) && e.headers.value.Value?
    requires StoredLookup(stage, resolve, e).Found?
    requires CredentialsAccepted(NormalizePassword(e).value, StoredLookup(stage, resolve, e).secret)
    requires "HomeDirectory" !in StoredLookup(stage, resolve, e).secret
    ensures Authorize(stage, resolve, e).Failed?
    ensures Authorize(stage, resolve, e).fault == Domain(NoHomeDirectory)
    ensures var secret := StoredLookup(stage, resolve, e).secret;
            Authorize(stage, resolve, e).partial == ServiceResult(
              if NormalizePassword(e).value == Value("") then Some([secret["PublicKey"]]) else None,
              Some(FieldOrEmpty(secret, "Role")),
              Some(FieldOrEmpty(secret, "Policy")),
              None)
  {
  }

  /** A `Password` header that is present but null selects the password
      flow, whose check then returns at once: neither credential is
      checked, and any secret with a home directory grants access. */
  lemma NullPasswordBypass(stage: string, username: string, serverId: string, secret: Secret)
    requires "HomeDirectory" in secret
    ensures Authorize(stage, _ => Found(secret), MakeEvent(username, serverId, Some(Null))).Granted?
    ensures Authorize(stage, _ => Found(secret), MakeEvent(username, serverId, Some(Null))).result.publicKeys == None
  {
  }

  /** A stored password matched by the header: Role copied, Policy
      defaulted, no key list. */
  lemma PasswordGrantExample(stage: string)
    ensures Authorize(stage, _ => Found(map["Password" := "p1", "Role" := "r", "HomeDirectory" := "/home/u"]),
                      MakeEvent("u", "s-1", Some(Value("p1"))))
            == Granted(ServiceResult(None, Some("r"), Some(""), Some("/home/u")))
  {
  }

  /** A stored public key offered to an empty-password request. */
  lemma KeyGrantExample(stage: string)
    ensures Authorize(stage, _ => Found(map["PublicKey" := "ssh-key-1", "Role" := "r", "HomeDirectory" := "/home/u"]),
                      MakeEvent("u", "s-1", None))
            == Granted(ServiceResult(Some(["ssh-key-1"]), Some("r"), Some(""), Some("/home/u")))
  {
  }

  /** A wrong password is refused, never granted. */
  lemma MismatchExample(stage: string)
    ensures Authorize(stage, _ => Found(map["Password" := "p1", "HomeDirectory" := "/home/u"]),
                      MakeEvent("u", "s-1", Some(Value("p2"))))
            == Failed(Domain(PasswordMismatch), Empty)
  {
  }

  /** The response body: the service result on success, otherwise the
      message, the partial result and the original event. */
  datatype Body = Payload(result: ServiceResult) | ErrorReport(message: string, respData: ServiceResult, event: Event)

  datatype Response = Response(statusCode: int, body: Body)

  /** The handler's classification: 200 for a grant, 400 for the
      authorizer's own error, 500 for any other exception. */
  function Respond(o: Outcome, e: Event): (resp: Response)
    ensures resp.statusCode == 200 <==> o.Granted?
    ensures resp.statusCode == 400 <==> o.Failed? && o.fault.Domain?
    ensures resp.statusCode == 500 <==> o.Failed? && o.fault.Unexpected?
    ensures o.Granted? ==> resp.body == Payload(o.result)
    ensures o.Failed? ==> resp.body == ErrorReport(o.fault.reason, o.partial, e)
  {
    match o
    case Granted(result) => Response(200, Payload(result))
    case Failed(Domain(reason), partial) => Response(400, ErrorReport(reason, partial, e))
    case Failed(Unexpected(reason), partial) => Response(500, ErrorReport(reason, partial, e))
  }

  /** The Lambda entry point: authorize, then classify. Once the earlier
      shape checks have passed, a 500 comes from exactly three causes: a
      null path-parameter section (once both sections are present), a null
      header section (once the path parameters are well formed), or an
      exception from the secrets store. Every other refusal is a 400. */
  function Handler(stage: string, resolve: string -> Lookup, e: Event): (resp: Response)
    ensures resp.statusCode in {200, 400, 500}
    ensures resp.statusCode == 200 <==> Admitted(stage, resolve, e)
    ensures resp.statusCode == 500 <==>
              HasSections(e)
              && (|| e.pathParameters.value.Null?
                  || (HasServerUser(e)
                      && (|| e.headers.value.Null?
                          || (e.headers.value.Value? && StoredLookup(stage, resolve, e).Raised?))))
  {
    Respond(Authorize(stage, resolve, e), e)
  }

  /** What a Lambda invocation produces: a response, or an exception that
      escapes the handler. */
  datatype Invocation = Returned(response: Response) | Escaped(error: string)

  const MissingExceptionClass: string :=
    "module 'src.libs.exceptions' has no attribute 'SFTPAuthorizeException'"

  /** The handler as written: the exceptions module defines no
      SFTPAuthorizeException, so on any exception inside the try block
      (a domain error or any other) evaluating the first except clause
      raises AttributeError, which escapes the handler. Only a grant
      produces a response. Even with the class defined, the error payload
      carries the exception object itself as its message, which the JSON
      encoder refuses with a TypeError raised inside the except block, so
      that path escapes too. */
  function HandleAsWritten(o: Outcome, e: Event): (inv: Invocation)
    ensures inv.Returned? <==> o.Granted?
    ensures inv.Returned? ==> inv.response.statusCode == 200
  {
    if o.Granted? then Returned(Respond(o, e)) else Escaped(MissingExceptionClass)
  }

  /** An event without path parameters should be answered 400; as
      written, the handler raises instead. */
  lemma AsWrittenLosesBadRequest(stage: string, resolve: string -> Lookup)
    ensures HandleAsWritten(Authorize(stage, resolve, Event(None, None)), Event(None, None)).Escaped?
    ensures Handler(stage, resolve, Event(None, None)).statusCode == 400
  {
  }
}
