# Authorization decision of the `/api/dashboard` handlers

This project models the authorization decision made by the `/api/dashboard`
handler of a small relying-party service. The handler exists in two provider
variants:

- **Google** (`scenario1/app.py`): the raw `Authorization` header is verified as a
  Google ID token for the configured client identifier. The verified `email`
  claim is then looked up in the directory of registered users.
- **EntraID** (`scenario2/app.py`): `verify_token` resolves the token's signing
  key from the tenant's key set. PyJWT then decodes the token with that key,
  accepting only RS256 and requiring the configured application identifier as
  audience. The identity is `preferred_username`, or `upn` when that is falsy.

Both handlers answer with the stored profile or abort with a status code. All
of them are pure decision procedures, so the model is written as functions.

- `PyValues` holds the Python semantics the handlers depend on:
  - the JSON values a token can carry;
  - truthiness (`if not x`);
  - `dict.get`, where a missing key reads as `None`;
  - the value-returning `or`;
  - `in` on a string-keyed dict, which raises `TypeError` for a list or a dict;
  - the exceptions a call can raise.
- `Authorization` is a flat reference procedure, `Authorize`. It classifies each
  request into a denial reason or an authorized profile.
- `GoogleDashboard` and `EntraDashboard` model each handler the way the source
  is written: a check on the header, a `try` block that returns a profile or
  raises, and the `except` clauses that turn an exception into a status. Each
  handler is proved equal to `Authorize` followed by the variant's own
  reason-to-status policy.
- `Variants` states where the two variants differ. For an authenticated but
  unregistered identity the Google variant answers 403 and the EntraID variant
  answers 401. Both behaviours are modelled as written.

The token verifiers are libraries whose code is not part of this model. Each
one is a parameter of the handler: a function returning either the token's
claims or an exception. These parameters are
`id_token.verify_oauth2_token` (type `GoogleDashboard.Verifier`),
`PyJWKClient.get_signing_key_from_jwt` (`EntraDashboard.KeyResolver`) and
`jwt.decode` (`EntraDashboard.Decoder`). A request whose header is missing or
empty gives the same answer for every choice of these functions, so the
verifier is never consulted.

Points of the source's behaviour that are easy to miss:
- The Google variant's missing-email check is in the handler, not in the verifier.
- An `email` claim that is a non-empty list or dict answers 500 in the Google
  variant, because the membership test raises `TypeError`.
- The EntraID variant falls back to `upn` when `preferred_username` is falsy,
  which includes an empty string, not only when it is absent.
- The source does not tell network or key-fetch failures apart from other verifier failures.
- A directory key `""` can never be served in either variant: the empty identity is falsy, so `if not user_email` refuses it before the lookup.

## Model

| member | source | states |
|---|---|---|
| `PyValues.Truthy` | scenario1/app.py:45 | `not x` holds exactly for `None`, `False`, zero, and the empty string, list and dict |
| `PyValues.DictGet` | scenario1/app.py:50 | `d.get(k)` is the stored value when `k` is a key; a non-`None` result always comes from the key `k` |
| `PyValues.Or` | scenario2/app.py:66 | `a or b` is `a` when `a` is truthy and `b` otherwise (so `None or ""` is `""`); the result is truthy iff either operand is |
| `PyValues.DictContains` | scenario1/app.py:54 | `in` on the directory raises `TypeError` exactly for an unhashable identity, and is true exactly for a string that is literally a key (no case folding or normalisation) |
| `Authorization.TokenPresent` | scenario1/app.py:43-46 | `not token` fails exactly for a missing header or an empty one |
| `Authorization.Authorize` | scenario1/app.py:42-66 | the decision table: missing token iff the header is falsy; authorized iff the token verifies and its identity is truthy and a directory key, and then the profile is the stored one; invalid token iff the verifier raised `ValueError`; missing claim iff the identity is falsy; not registered iff it is truthy and hashable but not a key; malformed iff it is truthy and unhashable (a non-empty list or dict); verifier abort/failure iff it raised an HTTP / other exception |
| `Authorization.Render` | scenario1/app.py:57-66 | a decision becomes a response: an authorized decision gives its profile, a denial gives `abort` with the variant's status for its reason |
| `Authorization.AuthorizeDependsOnHeaderOutcome` | scenario1/app.py:45-48 | the decision depends on the verifier only through its outcome for the header's own value, and not at all when the token is missing |
| `GoogleDashboard.EmailClaim` | scenario1/app.py:50 | the identity is the `email` claim when present, and `None` when absent |
| `GoogleDashboard.TryBlock` | scenario1/app.py:47-57 | a verifier exception propagates unchanged; the block returns iff the token verified and its email is truthy and a directory key, and then returns the stored profile; a falsy email (an empty list or dict included) raises HTTP 401, a non-empty list/dict email raises `TypeError`, any other unregistered email raises HTTP 403 |
| `GoogleDashboard.ExceptClauses` | scenario1/app.py:58-66 | a returned profile becomes the answer; an HTTP exception keeps its status; a `ValueError` gives 401; a `TypeError` or any other exception gives 500 |
| `GoogleDashboard.StatusPolicy` | scenario1/app.py:52-66 | an HTTP exception from the verifier keeps its code; otherwise every status is 401, 403 or 500; 403 exactly for an unregistered identity, 500 exactly for an unexpected verifier failure or a non-empty list/dict email |
| `GoogleDashboard.DeployedConfiguration` | scenario1/app.py:11-39 | the transcribed `registered_users` has exactly its five email keys, and a token verified for `GOOGLE_CLIENT_ID` with email `user3@example.com` gets User3's stored profile |
| `GoogleDashboard.Dashboard` | scenario1/app.py:42-66 | the handler equals `Authorize` under the 401/401/401/403/500 status policy; a missing token gives 401; a success means the verifier accepted the raw header for `GOOGLE_CLIENT_ID` and its email is a directory key whose stored profile is returned; every abort is 401, 403 or 500 unless the verifier itself raised an HTTP exception with that code |
| `GoogleDashboard.MissingTokenSkipsVerifier` | scenario1/app.py:43-46 | a missing or empty header gives 401 whatever the verifier would return |
| `GoogleDashboard.VerifierCalledWithClientId` | scenario1/app.py:39-48 | the answer depends on the verifier only through its outcome for the raw header and the audience `GOOGLE_CLIENT_ID` |
| `GoogleDashboard.RejectedTokenIs401` | scenario1/app.py:61-63 | a `ValueError` from the verifier gives 401 and no profile |
| `GoogleDashboard.MissingEmailIs401` | scenario1/app.py:50-60 | a verified token whose `email` is absent or falsy gives 401, not 500, since the raised HTTP exception is re-raised unchanged |
| `GoogleDashboard.UnregisteredEmailIs403` | scenario1/app.py:54-56 | a verified, truthy, hashable email that is not a directory key gives 403 |
| `GoogleDashboard.RegisteredEmailGetsStoredProfile` | scenario1/app.py:54-57 | a verified, non-empty email that is a directory key gives exactly the stored profile |
| `GoogleDashboard.UnexpectedFailureIs500` | scenario1/app.py:64-66 | a `TypeError` or other non-HTTP, non-`ValueError` exception from the verifier, or a non-empty list/dict email claim, gives 500 |
| `GoogleDashboard.MatchingIsCaseSensitive` | scenario1/app.py:11-57 | with the deployed directory, `XYZ@gmail.com` gets 403 while `xyz@gmail.com` gets User1's profile |
| `GoogleDashboard.EveryAccountReachable` | scenario1/app.py:54-57 | for any present token, every non-empty registered email has a verifier outcome that serves its profile |
| `EntraDashboard.VerifyToken` | scenario2/app.py:49-56 | every outcome comes from the key lookup or from `jwt.decode`, called with the token's own key, algorithms `["RS256"]` and audience `MICROSOFT_CLIENT_ID`; an exception from the key lookup propagates unchanged |
| `EntraDashboard.UsernameClaim` | scenario2/app.py:66 | the identity is `preferred_username` when that is truthy, otherwise `upn` (possibly `None`); it is usable iff either claim is truthy |
| `EntraDashboard.TryBlock` | scenario2/app.py:63-69 | a `verify_token` exception propagates unchanged; the block returns iff the token verified and its identity is truthy and a directory key, and then returns the stored profile; a falsy identity (an empty list or dict included) or an unregistered one raises HTTP 401, a non-empty list/dict identity raises `TypeError` |
| `EntraDashboard.ExceptClause` | scenario2/app.py:70-71 | a returned profile becomes the answer; every exception, the handler's own `abort(401)` included, gives 401 |
| `EntraDashboard.StatusPolicy` | scenario2/app.py:61-71 | every denial reason gets 401 |
| `EntraDashboard.DeployedConfiguration` | scenario2/app.py:11-41 | the transcribed `registered_users` has exactly its five keys, a verified token whose `upn` is `user3@domain.com` gets User3's profile, and a success means `jwt.decode` accepted the token for the placeholder audience `MICROSOFT_CLIENT_ID` |
| `EntraDashboard.Dashboard` | scenario2/app.py:59-71 | the handler equals `Authorize` under the all-401 policy; every answer is a profile or 401 (never 403 or 500); a success means the key was found, `jwt.decode` accepted the token with RS256 only and audience `MICROSOFT_CLIENT_ID`, and its identity is a directory key whose stored profile is returned |
| `EntraDashboard.MissingTokenSkipsVerifier` | scenario2/app.py:60-62 | a missing or empty header gives 401 whatever the key lookup and the decoder would return |
| `EntraDashboard.UnregisteredIdentityIs401` | scenario2/app.py:67-68 | a verified token whose identity is falsy or not a directory key gives 401 |
| `EntraDashboard.NoIdentityClaimIs401` | scenario2/app.py:66-71 | a verified token without `preferred_username` and `upn` gives 401 |
| `EntraDashboard.RegisteredIdentityGetsStoredProfile` | scenario2/app.py:69 | a verified, non-empty identity that is a directory key gives exactly the stored profile |
| `EntraDashboard.PreferredUsernameTakesPrecedence` | scenario2/app.py:66-68 | a non-empty but unregistered `preferred_username` gives 401 even if `upn` is registered |
| `EntraDashboard.ServedTokensAreRs256` | scenario2/app.py:51-53 | if the decoder accepts only the algorithms it is given, every served token declared RS256 |
| `EntraDashboard.EveryAccountReachable` | scenario2/app.py:66-69 | for any present token, every non-empty registered identity has key-lookup and decoder outcomes that serve its profile |
| `Variants.UnregisteredStatusDiffers` | scenario1/app.py:54-56 | for a token both variants verify with the same non-empty, unregistered identity, the Google handler gives 403 and the EntraID handler 401 (scenario2/app.py:67-68) |
| `Variants.SameDecisionDifferentPolicy` | scenario2/app.py:59-71 | when the verifiers and identity rules agree on a token, both handlers serve the same profile or both refuse; on a refusal the EntraID code is 401 and the Google code is the Google status for the reason `Authorize` gives; a not-registered reason gives 403 and 401 |
| `Variants.EmptyKeyNeverServed` | scenario1/app.py:52-53 | a verified token whose identity is the empty string gets 401 from both handlers, even when `""` is a directory key (scenario2/app.py:67-68) |
| `Variants.DeployedVariantsDisagree` | scenario2/app.py:11-37 | with the deployed directories, one set of claims is accepted by both verifiers and is answered 403 by the Google handler and 401 by the EntraID handler |

## Left out

- Flask routing, `app.run`, CORS setup and `print` logging are framework plumbing.
- `jsonify` serialisation is not modelled: a success is the stored `Profile` value itself.
- The description strings passed to `abort`, including `str(e)` in the EntraID variant, are left out. Only the status code is modelled.
- The cryptographic checks inside `verify_oauth2_token` and `jwt.decode` are library code. They are abstract parameters here. `ServedTokensAreRs256` takes the decoder's algorithm promise as an explicit assumption.
- The `grequests.Request()` transport argument is left out: it does not affect the decision.
- The discovery-document fetch at import time is network I/O and is left out. So are `TENANT_ID` and `DISCOVERY_URL`, which only that fetch uses.
- `PyJWKClient` key fetching and caching happen inside a library and over the network. A key lookup is one abstract call that returns a key or raises.
- The source has no separate unknown-key or upstream-unavailable outcome and no key cache of its own, so the model has none either.
- Concurrency between requests is left out: the handlers share only the read-only directory.
- Python's exception hierarchy is reduced to four disjoint classes: HTTP exceptions, `ValueError` and its subclasses, `TypeError`, and everything else. Exceptions outside `Exception`, such as `KeyboardInterrupt`, are not modelled.
- JSON numbers are modelled as reals. Only their truthiness matters here.
