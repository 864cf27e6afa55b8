# Spatial CAPTCHA challenge-session service, modelled in Dafny

The service issues and scores "spatial" CAPTCHA challenges. Its `captcha-api` request handler has two
endpoints:

- **POST /create** authenticates an API key by its SHA-256 digest and checks the owning account's call
  quota. It then inserts a challenge session holding a random target orientation, stamps the key's
  last use and charges the account one call.
- **POST /verify** finds a session by its token and rejects it if it has expired. A session that is
  already verified gets its stored result back. Otherwise the submitted Euler rotation is scored by
  quaternion distance (verified when the error is below 35 degrees), the attempt is counted, and the
  outcome is stored. An analytics record is sent when the session succeeds or has used 10 or more
  attempts.

The model has five modules:

- `Wrappers` (`wrappers.dfy`): `Option`.
- `Geometry` (`geometry.dfy`): Euler angles to a quaternion, the clamped dot product, the angle and the
  error in degrees. Cosine, sine and arc cosine come in as a `Trig` record of functions. Three predicates state
  the facts about them that the proofs use: `UnitCircle(t)` (cos² + sin² = 1), `Sane(t)` (that law
  and acos(1) = 0) and `AcosInRange(t)` (acos is non-negative on [0, 1] and largest at 0). All three
  hold for the real functions. Ranges are bounded by `acos(0)` rather than by `Pi`, because `Pi` is
  `Math.PI` as written, a decimal slightly below π. Arithmetic is over exact reals.
- `Quota` (`quota.dfy`): the `users_profile` row, the quota check, the usage charge, and a run of create
  requests against one account.
- `Sessions` (`sessions.dfy`): the `captcha_sessions` row and the analytics record. `VerifySession` is
  what one verify request does to a session that was found: the expiry check, the verified short-circuit,
  and the scoring with its analytics record. `Run` is a series of such requests.
- `CaptchaApi` (`captcha_api.dfy`): the `api_keys` row, key authentication, the random target, and the
  class `Store`. `Store` holds the three tables as maps (key id → key, user id → profile,
  token → session) and the analytics log as a sequence. Its methods `Create` and `Verify` step through
  the handler's guards with early returns and update the tables in place. `Verify` is proved against
  `VerifySession`; `Create` states its whole new state. The queries the handler makes are the
  definitions those two contracts use: `ActiveMatches` for the key query (index.ts:35-40), `ProfileOf`
  for the profile query (index.ts:50-54), `WellFormedRequest` for verify's field check (index.ts:119)
  and `Found` for verify's session query with its key join (index.ts:127-138).

What the handler takes from outside becomes a parameter:
- the digest function;
- the three `Math.random()` draws, each in [0, 1);
- the `crypto.randomUUID()` token;
- the current time;
- the trigonometry;
- whether the profile query fails, and whether the session insert fails, in the database.

A token that is already in use makes the insert fail, as a unique session token column would.

Session defaults are database defaults that the handler does not show. The model assumes 0 attempts,
not verified, no recorded error, and expiry 600 seconds after creation, the `expires_in` that the
create response advertises.

## Model

| member | source | states |
|---|---|---|
| `Geometry.EulerToQuaternion` | supabase/functions/captcha-api/index.ts:219-233 | when cos² + sin² = 1, the quaternion of any Euler triple has unit norm |
| `Geometry.HalfAnglesGiveUnitQuaternion` | supabase/functions/captcha-api/index.ts:220-232 | the four half-angle product terms have squared sum 1 whenever each cosine/sine pair lies on the unit circle |
| `Geometry.ClampedDot` | supabase/functions/captcha-api/index.ts:237-238 | the clamped value lies in [0, 1]; it is 1 exactly when the absolute dot product reaches 1, and otherwise it equals that product |
| `Geometry.Angle` | supabase/functions/captcha-api/index.ts:236-239 | the angle between two orientations lies in [0, 2·acos(0)], which is [0, π] for the real arc cosine |
| `Geometry.ErrorDegrees` | supabase/functions/captcha-api/index.ts:157-169 | the scored error lies in [0, 2·acos(0)·180/Pi] degrees, just above 180 because `Pi` is slightly below π |
| `Geometry.ErrorDegreesSymmetric` | supabase/functions/captcha-api/index.ts:236-238 | the error does not depend on which orientation is the target |
| `Geometry.ExactAnswerScoresZero` | supabase/functions/captcha-api/index.ts:157-169 | answering with exactly the target orientation scores 0 degrees |
| `Quota.Admits` | supabase/functions/captcha-api/index.ts:56 | the check refuses only an existing profile whose used count has reached its limit; an admitted profile has room for one more call |
| `Quota.Charge` | supabase/functions/captcha-api/index.ts:100-103 | charging raises the used count and keeps the limit; after an admitted check, used stays within the limit |
| `Quota.ServeCreatesRespectsQuota` | supabase/functions/captcha-api/index.ts:50-103 | for create requests served one at a time, the used count rises by exactly the number of sessions created. That number is the smaller of the successful inserts and the remaining quota, and an account within its limit stays within it |
| `Sessions.OrUnknown` | supabase/functions/captcha-api/index.ts:80-81 | an absent or empty client header is stored as "unknown"; a present one is stored as is |
| `Sessions.NewSession` | supabase/functions/captcha-api/index.ts:72-84 | a new session is well formed, has 0 attempts, is unverified, expires 600 s after creation, and is bound to the key and target |
| `Sessions.VerifySession` | supabase/functions/captcha-api/index.ts:140-203 | 410 exactly when expiry < now, and expiry is checked before the verified flag. A verified session gets its stored error back and is unchanged. Otherwise the attempt count rises by exactly 1, verified is set iff error < 35, and the error is stored. `verified_at` is set iff verified, and the response reports attempts with max_attempts 10. A record (user, success, error, attempts) is sent iff verified or attempts ≥ 10. The challenge fields never change, verified never reverts, and well-formedness is kept |
| `Sessions.VerifiedSessionIsFinal` | supabase/functions/captcha-api/index.ts:149-154 | after verification, no series of requests changes the session or sends analytics |
| `Sessions.RunProgress` | supabase/functions/captcha-api/index.ts:171-193 | over any series of requests the challenge is unchanged, attempts rise by at most one per request, verified never reverts, analytics records never outnumber the attempts made, and well-formedness is kept |
| `Sessions.SuccessReportedOnce` | supabase/functions/captcha-api/index.ts:185-193 | a series of requests reports one success exactly when it verifies the session, and none otherwise |
| `Sessions.FailedAttempts` | supabase/functions/captcha-api/index.ts:171-193 | n failed requests on an open session add n attempts and leave it unverified. They send one failure record for each attempt from the tenth on, and no success |
| `Sessions.LateCloseAnswerVerifies` | supabase/functions/captcha-api/index.ts:171-183 | with 10 or more attempts used, a close answer still verifies an open session (there is no attempt cap) |
| `Sessions.ExactAnswerVerifies` | supabase/functions/captcha-api/index.ts:156-193 | answering an open, unverified session with its own target verifies it with error 0 and records a success |
| `CaptchaApi.TargetRotation` | supabase/functions/captcha-api/index.ts:64-68 | the target's x and y lie in [-Pi/2, Pi/2) and its z in [-Pi/4, Pi/4), with `Pi` being `Math.PI` |
| `CaptchaApi.Authenticate` | supabase/functions/captcha-api/index.ts:25-47 | the key is missing iff the header is absent or empty. It is authorized iff its digest matches exactly one active key, and then it names that key |
| `CaptchaApi.RevokedKeyKeepsSessions` | supabase/functions/captcha-api/index.ts:127-131 | the session query joins on the key without filtering on `is_active`: after a key is revoked it no longer authenticates, yet its sessions are still found |
| `CaptchaApi.Store.Create` | supabase/functions/captcha-api/index.ts:24-113 | failure codes in order: 401 (missing or invalid key), then 429 (used ≥ limit, only when the profile was read), then 500 (insert fails). Any failure changes no table. On success, verify's lookup finds the new token, and the set of keys that authenticate is unchanged. On success: one new session under the fresh token, last use stamped, and a response of token, target and 600. An existing profile is charged one call when it was read, and its used count is set to 1 when its read failed. Well-formedness is kept, and so is quota unless the profile read failed |
| `CaptchaApi.Store.Verify` | supabase/functions/captcha-api/index.ts:116-204 | 400 if the token is absent or empty or the rotation is absent. 404 if the token is unknown or its key row is gone. Neither changes anything. Otherwise the response, the new session and the analytics entry are those of `VerifySession` for the stored target. No other session, key or profile changes, and verified sessions stay as they were. On a well-formed store, a repeated answer reports a stored error below 35 |
| `CaptchaApi.CreateThenAnswerExactly` | supabase/functions/captcha-api/index.ts:105-171 | a created session answered with the target it was given, before expiry, is verified on attempt 1 with error 0, and one success is recorded |

## Behaviour worth knowing

The handler answers every scored attempt with `max_attempts: 10` (index.ts:200). Its comment at
index.ts:185 speaks of a "final attempt". The code does not enforce either, and the model follows the
code:

- **No attempt cap.** Scoring continues after 10 attempts, so a late close answer still verifies
  (`Sessions.LateCloseAnswerVerifies`).
- **Repeated analytics.** Every failed attempt from the tenth on sends a failure record, not just the
  tenth (`Sessions.FailedAttempts`). For example, 12 failed requests on a new session send 3 records.
  A success, by contrast, is reported at most once (`Sessions.SuccessReportedOnce`).
- **Quota check and usage write are separate steps.** The write stores the value read before the insert
  plus one. The model is sequential, so it keeps `used ≤ limit` (`Quota.ServeCreatesRespectsQuota`). It
  does not show what concurrent creates do.
- **Missing profile.** An account without a profile row is not quota-checked. Its usage write matches no
  row, so nothing is charged.
- **Failed profile read.** The handler ignores the profile query's error. The profile then counts as
  absent, so the quota check is skipped, and the usage write stores `0 + 1` into the existing row. A
  successful create then resets the account's used count to 1 (`CaptchaApi.Store.Create`).
- **Revoked keys.** The session query joins on the key row without filtering on `is_active`
  (index.ts:127-131). A revoked key no longer authenticates a create, but the sessions it created are
  still found and still verify (`CaptchaApi.RevokedKeyKeepsSessions`).
- **Euler order.** `eulerToQuaternion` (index.ts:219-233) composes the three rotations in Z-Y-X order.
  The widget sends `interactiveObject.rotation` (widget.js:361-364), whose order is three.js's default,
  X-Y-Z. When more than one axis is turned, the widget's orientation and the handler's quaternion can
  disagree. This comes from reading the two files, was not executed, and is not modelled: the model
  scores the triple the handler receives.

## Left out

- HTTP plumbing is not modelled: CORS headers, the OPTIONS preflight, stripping the path prefix,
  routing to the "Not found" 404, JSON body parsing and the catch-all 500 for thrown exceptions.
- Floating point is not modelled. The model uses exact reals, and trigonometry is abstract. A
  rotation object with missing coordinates, which would score as NaN, is not modelled.
- Database faults are modelled for the profile query and the session insert only. A failed key query
  answers 401 and a failed session query answers 404, the same as a key or session that is not there.
  The handler ignores failures of the last-used write, the usage write, the session update in /verify
  (index.ts:175-183) and the analytics call. The model treats those writes as always succeeding, so it
  does not show a /verify that reports a result its session row never stored.
- The database stamps a session's expiry and the handler reads the current time. The model uses one
  clock for both: `now` is the same kind of instant in `Create` and in `Verify`. /verify also reads the
  clock twice, once for the expiry check (index.ts:141) and once for `verified_at` (index.ts:181); the
  model takes both as one instant. So `WellFormed`'s `verifiedAt ≤ expiresAt` holds in the model but
  not always in the service: a check that passes just before expiry can stamp a time just after it.
- The body of the `update_verification_analytics` procedure is not modelled; the model appends one
  record per call to a log.
- Concurrency is not modelled: neither the race between the quota check and the usage write nor two
  verify requests on one token racing.
- The dashboard, the embeddable widget and the three.js client are not modelled. The widget refreshes
  the challenge after 10 attempts on the client side only.
