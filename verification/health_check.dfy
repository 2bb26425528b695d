/**
  The health-check endpoint of serverless/src/functions/health_check.py:
  it answers with a copy of the process environment from which the three
  AWS credential variables have been removed.
 */
module HealthCheck {

  type Env = map<string, string>

  /** The credential variables, in the order the handler deletes them. */
  const CredentialKeys: seq<string> := ["AWS_ACCESS_KEY_ID", "AWS_SECRET_ACCESS_KEY", "AWS_SESSION_TOKEN"]

  /** One guarded `del`: remove the key if present, never an error. */
  function DeleteIfPresent(env: Env, key: string): (r: Env)
    ensures r.Keys == env.Keys - {key}
    ensures forall k :: k in r ==> r[k] == env[k]
  {
    if key in env then env - {key} else env
  }

  /** The guarded deletions of `keys`, one after another. */
  function DeleteEach(env: Env, keys: seq<string>): (r: Env)
    ensures r.Keys == env.Keys - set k | k in keys
    ensures forall k :: k in r ==> r[k] == env[k]
    decreases |keys|
  {
    if keys == [] then
      env
    else
      assert forall k :: k in keys <==> k == keys[0] || k in keys[1..];
      DeleteEach(DeleteIfPresent(env, keys[0]), keys[1..])
  }

  /** The environment the health check reports. */
  function Redact(env: Env): (r: Env)
    ensures "AWS_ACCESS_KEY_ID" !in r && "AWS_SECRET_ACCESS_KEY" !in r && "AWS_SESSION_TOKEN" !in r
    ensures forall k :: k in env && k !in CredentialKeys ==> k in r && r[k] == env[k]
    ensures r.Keys <= env.Keys
  {
    assert CredentialKeys[0] == "AWS_ACCESS_KEY_ID";
    assert CredentialKeys[1] == "AWS_SECRET_ACCESS_KEY";
    assert CredentialKeys[2] == "AWS_SESSION_TOKEN";
    DeleteEach(env, CredentialKeys)
  }

  /** Redaction is exactly map subtraction of the three credential names. */
  lemma RedactIsRemoval(env: Env)
    ensures Redact(env) == env - {"AWS_ACCESS_KEY_ID", "AWS_SECRET_ACCESS_KEY", "AWS_SESSION_TOKEN"}
  {
  }

  /** Redacting twice is redacting once. */
  lemma RedactIdempotent(env: Env)
    ensures Redact(Redact(env)) == Redact(env)
  {
  }

  /** An environment without credential variables is reported unchanged. */
  lemma RedactKeepsCleanEnv(env: Env)
    requires forall k :: k in env ==> k !in CredentialKeys
    ensures Redact(env) == env
  {
  }

  datatype Response = Response(statusCode: int, body: Env)

  /** The handler always answers 200 with the redacted environment; the
      one exception it catches is never raised by the redaction. */
  function Handler(env: Env): (resp: Response)
    ensures resp.statusCode == 200
    ensures resp.body.Keys == env.Keys - {"AWS_ACCESS_KEY_ID", "AWS_SECRET_ACCESS_KEY", "AWS_SESSION_TOKEN"}
    ensures resp.body == env - {"AWS_ACCESS_KEY_ID", "AWS_SECRET_ACCESS_KEY", "AWS_SESSION_TOKEN"}
  {
    Response(200, Redact(env))
  }
}
