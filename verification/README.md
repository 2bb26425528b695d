# SFTP custom identity provider: authorization decision

This project models the authorization callback of an SFTP transfer
service's custom identity provider. The callback receives a connection
attempt: a username and server id in the path parameters, and an optional
`Password` header. It looks up the user's secret record under
`{stage}/SFTP/core/{username}`. A non-empty password is checked against
the stored `Password`. An empty password means the public-key flow, which
offers the stored `PublicKey`. The callback then records `Role` and
`Policy`, defaulting each to the empty string, and requires
`HomeDirectory`. The handler answers:

- 200 with the service result,
- 400 for one of the authorizer's own errors,
- 500 for any other exception.

The project also models the health-check endpoint's redaction of the AWS
credential variables from the reported environment.

Modules:

- `Values`: Option / Nullable / Fault / Result.
- `Request`: username, server id and password extraction.
- `Credentials`: secret path and lookup, password check, key flow,
  Role/Policy defaults, home directory.
- `Authorize`: the handler's pipeline, the partial service result and the
  status classification.
- `HealthCheck`: the redaction.

The secrets store is an injected function `string -> Lookup` with three
answers: a decoded record, nothing (None), or a re-raised exception. The
deployment stage is a parameter.

Points where the code's behaviour is easy to misread:

- An empty username or server id is accepted. Only a missing or null one
  is rejected.
- The public-key flow reads a single `PublicKey` field and offers it as a
  one-element list. A present but empty key string is offered, not
  rejected.
- A `Password` header that is present but JSON null selects the password
  flow. The password check then returns at once, so no credential is
  checked at all (`Authorize.NullPasswordBypass`).
- A null `pathParameters` or `headers` section is a Python TypeError once
  the earlier shape checks have passed. It then gives 500, not the
  request-shape error.
- The secrets client re-raises `ResourceNotFoundException`, so a secret
  that does not exist gives 500. The "secret not found" error (400) arises
  only when the client swallows an error code it does not list and returns
  None.
- The handler catches `ex.SFTPAuthorizeException`, but
  `serverless/src/libs/exceptions.py` does not define that class. The
  model follows the evident intent: one domain-error kind carrying the
  handler's message, answered with 400. The as-written behaviour is
  recorded under Findings.

## Model

| member | source | states |
|---|---|---|
| Request.ExtractServerUser | serverless/src/functions/sftp_authorize.py:61-80 | Extraction succeeds exactly when both sections are present and the path parameters hold non-null `username` and `serverId`, and it returns them unchanged. A missing section is "Event parameters not set". A missing `username` or `serverId` key is "parameters not set", and a null value is "parameters are empty". A null path-parameter section is a TypeError (500). |
| Request.NormalizePassword | serverless/src/functions/sftp_authorize.py:83-93 | An absent `Password` header reads as the empty string and is never an error. A present header value, null included, is passed through unchanged. Only an unreadable header section fails, and only with a non-domain error. |
| Request.RequestRoundTrip | serverless/src/functions/sftp_authorize.py:61-93 | Extracting from an event built for (username, serverId, header) returns that username and server id. It also returns the header value, or the empty password when the header is absent. |
| Request.EmptyUsernameAccepted | serverless/src/functions/sftp_authorize.py:77-80 | An empty-string username passes extraction and is returned as is. |
| Credentials.SecretPath | serverless/src/functions/sftp_authorize.py:100 | The secret path is the stage, then `/SFTP/core/`, then the username, each in its position. |
| Credentials.SecretPathRoundTrip | serverless/src/functions/sftp_authorize.py:100 | The username can be read back from its secret path. |
| Credentials.SecretPathInjective | serverless/src/functions/sftp_authorize.py:100 | Within one stage, two usernames share a secret path exactly when they are equal. |
| Credentials.FetchSecret | serverless/src/functions/sftp_authorize.py:96-107 | The store is consulted at the user's secret path. A found record is returned. None is the domain error "User secret not found in secrets manager". A raised exception passes through as a non-domain fault. |
| Credentials.SelectStrategy | serverless/src/functions/sftp_authorize.py:30-37 | The public-key flow is chosen exactly when the password is the empty string. Any other value, null included, selects the password flow carrying that value. |
| Credentials.CheckPassword | serverless/src/functions/sftp_authorize.py:110-123 | The check is a no-op for an empty or null password. Otherwise it succeeds exactly when the secret has a `Password` equal to the given one. A missing field is "no field match in Secret for password" and a differing stored password is "incoming password does not match stored". |
| Credentials.PublicKeys | serverless/src/functions/sftp_authorize.py:126-134 | The key flow fails with "no SSH public keys found" exactly when `PublicKey` is absent. Otherwise it returns the one-element list of the stored key. |
| Credentials.Authenticate | serverless/src/functions/sftp_authorize.py:30-37 | The password flow succeeds exactly when the password check does, records no key list, and fails with the password check's own error. The key flow succeeds exactly when a key is stored, records that key, and otherwise fails with "no SSH public keys found". |
| Credentials.RolePolicy | serverless/src/functions/sftp_authorize.py:137-148 | Role and Policy are copied verbatim when present and are the empty string when absent. They never fail. |
| Credentials.HomeDirectory | serverless/src/functions/sftp_authorize.py:151-162 | The home directory is required: "Home directory not found" exactly when it is absent, and otherwise the stored value. |
| Credentials.StrategiesReadDisjointFields | serverless/src/functions/sftp_authorize.py:110-134 | The password flow's result does not depend on `PublicKey`, and the key flow's result does not depend on `Password`. |
| Authorize.Authorize | serverless/src/functions/sftp_authorize.py:14-50 | A request is granted exactly when it is well formed, its secret is found, its credentials are accepted and a home directory is stored. A grant holds exactly Role, Policy and HomeDirectory, plus PublicKeys if and only if the password was empty. A failure with a non-empty partial result is always the missing home directory. |
| Authorize.GrantContents | serverless/src/functions/sftp_authorize.py:36-50 | A grant's values are the stored key (key flow only), Role and Policy verbatim or empty, and the stored home directory. |
| Authorize.MalformedRequestNeverResolves | serverless/src/functions/sftp_authorize.py:21-25 | A request that fails extraction fails with that error and an empty result, whatever the secrets store holds. |
| Authorize.OnlySecretPathConsulted | serverless/src/functions/sftp_authorize.py:25 | Two stores that agree at the user's secret path give the same outcome. |
| Authorize.MissingSecretStopsBeforeCredentials | serverless/src/functions/sftp_authorize.py:25-31 | A missing secret gives "User secret not found" with an empty result, and no credential check runs. |
| Authorize.PasswordFlowIgnoresPublicKey | serverless/src/functions/sftp_authorize.py:30-32 | With a non-empty password, the stored `PublicKey` does not affect the outcome, and a grant carries no PublicKeys. |
| Authorize.KeyFlowIgnoresPassword | serverless/src/functions/sftp_authorize.py:34-37 | With the empty password, the stored `Password` does not affect the outcome, and a grant carries the stored key. |
| Authorize.CredentialErrorPrecedesHomeDirectory | serverless/src/functions/sftp_authorize.py:30-46 | Rejected credentials fail with an empty result, even when the home directory is also missing. The error is "no SSH public keys found" for the empty password, "no field match in Secret for password" when no password is stored, and "incoming password does not match stored" otherwise. |
| Authorize.MissingHomeDirectoryAfterCredentials | serverless/src/functions/sftp_authorize.py:41-46 | With accepted credentials but no home directory, the request fails with "Home directory not found". The partial result already holds Role, Policy and (key flow) the key list. |
| Authorize.NullPasswordBypass | serverless/src/functions/sftp_authorize.py:24-31 | A present but null `Password` header grants access for any secret with a home directory. Neither credential is checked, and no key list is recorded. |
| Authorize.PasswordGrantExample | serverless/src/functions/sftp_authorize.py:30-50 | Password "p1" against a stored "p1" with Role "r" gives Role "r", Policy "", the home directory, and no PublicKeys. |
| Authorize.KeyGrantExample | serverless/src/functions/sftp_authorize.py:34-50 | The empty password against a stored key gives PublicKeys ["ssh-key-1"] beside Role, Policy "" and the home directory. |
| Authorize.MismatchExample | serverless/src/functions/sftp_authorize.py:122-123 | Password "p2" against a stored "p1" is the mismatch error, never a grant. |
| Authorize.Respond | serverless/src/functions/sftp_authorize.py:50-58 | Status 200 is exactly a grant, with the service result as body. 400 is exactly a domain fault and 500 exactly any other fault; both carry the message, the partial result and the event. |
| Authorize.Handler | serverless/src/functions/sftp_authorize.py:14-58 | Every request is answered with 200, 400 or 500, and with 200 exactly when it is admitted. It is answered 500 exactly when both sections are present and either the path-parameter section is null, or the path parameters are well formed and the header section is null or the secrets store raised. Every other refusal is 400. |
| Authorize.HandleAsWritten | serverless/src/functions/sftp_authorize.py:52-58 | With the exception class undefined, the handler returns a response (always 200) exactly on a grant. Every other path escapes. |
| Authorize.AsWrittenLosesBadRequest | serverless/src/functions/sftp_authorize.py:52-54 | An event without path parameters escapes the handler as written, but is answered 400 by the corrected handler. |
| HealthCheck.DeleteIfPresent | serverless/src/functions/health_check.py:21-22 | A guarded deletion removes exactly that key, keeps every other value, and never fails on an absent key. |
| HealthCheck.DeleteEach | serverless/src/functions/health_check.py:20-28 | The guarded deletions in sequence remove exactly the listed keys and keep every other value. |
| HealthCheck.Redact | serverless/src/functions/health_check.py:20-28 | The three credential variables are gone. Every other variable keeps its value. No key is added. |
| HealthCheck.RedactIsRemoval | serverless/src/functions/health_check.py:20-28 | Redaction equals removing the three credential names from the map. |
| HealthCheck.RedactIdempotent | serverless/src/functions/health_check.py:20-28 | Redacting an already redacted environment changes nothing. |
| HealthCheck.RedactKeepsCleanEnv | serverless/src/functions/health_check.py:21-28 | An environment without credential variables is reported unchanged. |
| HealthCheck.Handler | serverless/src/functions/health_check.py:11-34 | The health check always answers 200, with the environment minus exactly the three credential variables, values unchanged. |

## Left out

- Secrets client (`serverless/src/libs/secrets.py`): the store client, its error-code handling and its base64 decoding are abstracted into the three `Lookup` answers.
- JSON decoding of the secret: the record is modelled as a decoded object with string fields. A non-object record or non-string field values are not modelled. A decoding error counts as an exception from the store (500).
- Deployment stage: `os.environ['STAGE']` is a parameter. The KeyError raised when it is unset is not modelled.
- Event values: path parameters and headers are strings or null. Other JSON types and a non-object section that is not null are not modelled.
- Logging: the logger calls, including `vars(context)`, are left out. A context that makes `vars` raise would give 500, and that path is not modelled.
- Response envelope (`serverless/src/libs/beacon.py`, `serverless/src/libs/jsonencoder.py`): the shared response dict and JSON encoding are out of scope. Only the status code and the body's parts are modelled.
- Authorize.Respond: the error body's `message` is the exception's text, which is the intent. As written, the handler passes the exception object itself, and JSON encoding it raises a TypeError that escapes the handler (see Findings).
- `serverless/src/libs/log.py` and `serverless/src/libs/exceptions.py`: logging setup and unrelated exception classes, with no logic to model.
- Shared `service_result`: the module-level dict persists across invocations, so a `PublicKeys` entry can leak into later responses. The model builds a fresh result per call, so the partial result at each failure point is well defined.
- Health-check exception branch: it catches an exception nothing in the redaction raises, so it is not modelled.

## Findings

| source | as written | input that shows it | evidently intended | confidence | as-written member | corrected member |
|---|---|---|---|---|---|---|
| serverless/src/functions/sftp_authorize.py:52 | `except ex.SFTPAuthorizeException` names a class that `serverless/src/libs/exceptions.py` does not define. On any exception in the try block, evaluating this clause raises AttributeError, which escapes the handler. So neither the 400 nor the 500 branch is ever reached. A second cause, at lines 54 and 58: the error payload puts the exception object itself under `message`. `JsonEncoder.default` raises TypeError for it (`serverless/src/libs/jsonencoder.py:22-25`), and `bad_request`/`server_error` re-raise it. That happens inside the except block, so it also escapes the handler. | an event with no `pathParameters` key | domain errors answered 400 and all other exceptions answered 500 | high; not executed | Authorize.HandleAsWritten | Authorize.Respond |
