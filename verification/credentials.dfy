/**
  The per-user secret record and the checks serverless/src/functions/sftp_authorize.py
  runs against it: where the secret lives, what a missing secret means,
  the password check, the public-key flow, the Role/Policy defaults and
  the required home directory.
 */
module Credentials {
  import opened Values

  /** The decoded secret: a JSON object whose fields of interest are
      `Password`, `PublicKey`, `Role`, `Policy` and `HomeDirectory`. */
  type Secret = map<string, string>

  /** What the secrets store answers for a secret path: the decoded record,
      nothing (the client swallowed an error code it does not list and
      returned None), or an exception it re-raised. */
  datatype Lookup = Found(secret: Secret) | NotFound | Raised(reason: string)

  /** The two credential strategies; exactly one runs per request. The
      password flow carries the header value, which may be null. */
  datatype Strategy = PasswordFlow(password: Nullable<string>) | PublicKeyFlow

  const SecretFolder: string := "/SFTP/core/"

  const SecretNotFound: string := "User secret not found in secrets manager"
  const NoPasswordField: string := "Unable to authenticate user, no field match in Secret for password"
  const PasswordMismatch: string := "Unable to authenticate user, incoming password does not match stored"
  const NoPublicKeys: string := "Unable to authenticate user, no SSH public keys found"
  const NoHomeDirectory: string := "Home directory not found for user, must be present"

  /** Name of a user's secret in the store: the deployment stage, the
      fixed folder, then the username. */
  function SecretPath(stage: string, username: string): (path: string)
    ensures |path| == |stage| + |SecretFolder| + |username|
    ensures path[..|stage|] == stage
    ensures path[|stage|..|stage| + |SecretFolder|] == SecretFolder
    ensures path[|stage| + |SecretFolder|..] == username
  {
    stage + SecretFolder + username
  }

  /** The username a secret path of the given stage names, if it is one. */
  function UsernameOf(stage: string, path: string): (u: Option<string>)
    ensures u.Some? ==> SecretPath(stage, u.value) == path
  {
    var n := |stage| + |SecretFolder|;
    if n <= |path| && path[..|stage|] == stage && path[|stage|..n] == SecretFolder then
      var u := path[n..];
      assert path == path[..|stage|] + path[|stage|..n] + u;
      Some(u)
    else
      None
  }

  /** The username is recovered from its secret path. */
  lemma SecretPathRoundTrip(stage: string, username: string)
    ensures UsernameOf(stage, SecretPath(stage, username)) == Some(username)
  {
  }

  /** Within one stage, distinct users never share a secret. */
  lemma SecretPathInjective(stage: string, u1: string, u2: string)
    ensures SecretPath(stage, u1) == SecretPath(stage, u2) <==> u1 == u2
  {
  }

  /** The user's secret from the store: a miss is the authorizer's own
      error and an exception from the store passes through unchanged. The
      store is consulted at exactly one path. */
  function FetchSecret(stage: string, resolve: string -> Lookup, username: string): (r: Result<Secret>)
    ensures r.Ok? <==> resolve(SecretPath(stage, username)).Found?
    ensures r.Ok? ==> r.value == resolve(SecretPath(stage, username)).secret
    ensures resolve(SecretPath(stage, username)).NotFound? <==> r == Err(Domain(SecretNotFound))
    ensures resolve(SecretPath(stage, username)).Raised?
            ==> r == Err(Unexpected(resolve(SecretPath(stage, username)).reason))
  {
    match resolve(SecretPath(stage, username))
    case Found(secret) => Ok(secret)
    case NotFound => Err(Domain(SecretNotFound))
    case Raised(reason) => Err(Unexpected(reason))
  }

  /** The strategy the handler picks: any header value other than the
      empty string (a null one included) selects the password flow. */
  function SelectStrategy(password: Nullable<string>): (s: Strategy)
    ensures s.PublicKeyFlow? <==> password == Value("")
    ensures s.PasswordFlow? ==> s.password == password
  {
    if password != Value("") then PasswordFlow(password) else PublicKeyFlow
  }

  /** The password check. It does nothing for an empty or null password;
      otherwise it succeeds exactly when the secret has a `Password` field
      equal to the given password, and names which of the two conditions
      failed. */
  function CheckPassword(password: Nullable<string>, secret: Secret): (r: Result<()>)
    ensures password == Null || password == Value("") ==> r.Ok?
    ensures password.Value? && password.value != "" ==>
              (r.Ok? <==> "Password" in secret && secret["Password"] == password.value)
    ensures password.Value? && password.value != "" && "Password" !in secret
            ==> r == Err(Domain(NoPasswordField))
    ensures password.Value? && password.value != "" && "Password" in secret
            && secret["Password"] != password.value
            ==> r == Err(Domain(PasswordMismatch))
    ensures r.Err? ==> r == Err(Domain(NoPasswordField)) || r == Err(Domain(PasswordMismatch))
  {
    if password == Value("") || password == Null then
      Ok(())
    else if "Password" !in secret then
      Err(Domain(NoPasswordField))
    else if secret["Password"] != password.value then
      Err(Domain(PasswordMismatch))
    else
      Ok(())
  }

  /** The public-key flow: fails without a `PublicKey` field, otherwise
      offers that one key as a one-element list. */
  function PublicKeys(secret: Secret): (r: Result<seq<string>>)
    ensures r.Ok? <==> "PublicKey" in secret
    ensures r.Ok? ==> r.value == [secret["PublicKey"]]
    ensures r.Err? ==> r == Err(Domain(NoPublicKeys))
  {
    if "PublicKey" !in secret then Err(Domain(NoPublicKeys)) else Ok([secret["PublicKey"]])
  }

  /** Runs the chosen strategy. On success it yields the `PublicKeys`
      entry to record: none after the password flow, the key list after
      the public-key flow. */
  function Authenticate(strategy: Strategy, secret: Secret): (r: Result<Option<seq<string>>>)
    ensures strategy.PasswordFlow? ==> (r.Ok? <==> CheckPassword(strategy.password, secret).Ok?)
    ensures strategy.PasswordFlow? && r.Ok? ==> r.value == None
    ensures strategy.PasswordFlow? && r.Err? ==> r == Err(CheckPassword(strategy.password, secret).fault)
    ensures strategy.PublicKeyFlow? ==> (r.Ok? <==> "PublicKey" in secret)
    ensures strategy.PublicKeyFlow? && r.Ok? ==> r.value == Some([secret["PublicKey"]])
    ensures strategy.PublicKeyFlow? && r.Err? ==> r == Err(Domain(NoPublicKeys))
    ensures r.Err? ==> r.fault.Domain?
  {
    match strategy
    case PasswordFlow(p) =>
      var _ :- CheckPassword(p, secret);
      Ok(None)
    case PublicKeyFlow =>
      var keys :- PublicKeys(secret);
      Ok(Some(keys))
  }

  /** The value of an optional field, or the empty string. */
  function FieldOrEmpty(secret: Secret, field: string): string {
    if field in secret then secret[field] else ""
  }

  /** Role and Policy: copied verbatim when present, the empty string when
      absent, and never a failure. */
  function RolePolicy(secret: Secret): (rp: (string, string))
    ensures "Role" in secret ==> rp.0 == secret["Role"]
    ensures "Role" !in secret ==> rp.0 == ""
    ensures "Policy" in secret ==> rp.1 == secret["Policy"]
    ensures "Policy" !in secret ==> rp.1 == ""
  {
    (FieldOrEmpty(secret, "Role"), FieldOrEmpty(secret, "Policy"))
  }

  /** The home directory: required, copied verbatim. */
  function HomeDirectory(secret: Secret): (r: Result<string>)
    ensures r.Ok? <==> "HomeDirectory" in secret
    ensures r.Ok? ==> r.value == secret["HomeDirectory"]
    ensures r.Err? ==> r == Err(Domain(NoHomeDirectory))
  {
    if "HomeDirectory" !in secret then Err(Domain(NoHomeDirectory)) else Ok(secret["HomeDirectory"])
  }

  /** Two secrets that differ at most in one field agree on every other. */
  lemma AgreeOutside(s1: Secret, s2: Secret, changed: string, field: string)
    requires s1 - {changed} == s2 - {changed}
    requires field != changed
    ensures field in s1 <==> field in s2
    ensures field in s1 ==> s1[field] == s2[field]
  {
    assert field in s1 <==> field in s1 - {changed};
    assert field in s2 <==> field in s2 - {changed};
    if field in s1 {
      assert s1[field] == (s1 - {changed})[field];
      assert s2[field] == (s2 - {changed})[field];
    }
  }

  /** The password flow never reads the secret's `PublicKey` field, and
      the public-key flow never reads its `Password` field. */
  lemma StrategiesReadDisjointFields(strategy: Strategy, s1: Secret, s2: Secret)
    requires strategy.PasswordFlow? ==> s1 - {"PublicKey"} == s2 - {"PublicKey"}
    requires strategy.PublicKeyFlow? ==> s1 - {"Password"} == s2 - {"Password"}
    ensures Authenticate(strategy, s1) == Authenticate(strategy, s2)
  {
    match strategy
    case PasswordFlow(p) => AgreeOutside(s1, s2, "PublicKey", "Password");
    case PublicKeyFlow => AgreeOutside(s1, s2, "Password", "PublicKey");
  }
}
