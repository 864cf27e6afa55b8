/**
 * The captcha-api request handler: the create and verify endpoints over the
 * `api_keys`, `users_profile` and `captcha_sessions` tables and the
 * analytics procedure, held as one `Store` object.
 *
 * What the handler takes from outside is passed in: the SHA-256 digest as a
 * function, the three `Math.random()` draws, the `crypto.randomUUID()` token,
 * the current time, the trigonometry, and whether the session insert fails
 * in the database for a reason other than a duplicate token.
 */
module CaptchaApi {
  import opened Wrappers
  import opened Geometry
  import opened Quota
  import opened Sessions

  type Token = string

  const MissingKeyMessage: string := "Missing API key"
  const InvalidKeyMessage: string := "Invalid API key"
  const LimitExceededMessage: string := "API call limit exceeded"
  const CreateFailedMessage: string := "Failed to create session"
  const MissingFieldsMessage: string := "Missing session_token or user_rotation"
  const InvalidTokenMessage: string := "Invalid session token"

  /** An `api_keys` row: only the digest of the key is stored. */
  datatype ApiKey = ApiKey(userId: UserId, keyHash: string, isActive: bool, lastUsedAt: Option<Time>)

  /** The responses of /create; `CreateError` carries the HTTP status. */
  datatype CreateResponse =
    | Created(sessionToken: Token, targetRotation: Rotation, expiresIn: int)
    | CreateError(status: int, message: string)

  /** Three results of `Math.random()`, each in [0, 1). */
  datatype Draws = Draws(x: real, y: real, z: real)

  predicate ValidDraws(d: Draws) {
    0.0 <= d.x < 1.0 && 0.0 <= d.y < 1.0 && 0.0 <= d.z < 1.0
  }

  /** The target orientation of a new session: pitch and yaw within a half turn, roll within a quarter turn. */
  function TargetRotation(d: Draws): (r: Rotation)
    requires ValidDraws(d)
    ensures -Pi / 2.0 <= r.x < Pi / 2.0
    ensures -Pi / 2.0 <= r.y < Pi / 2.0
    ensures -Pi / 4.0 <= r.z < Pi / 4.0
  {
    Rotation(d.x * Pi - Pi / 2.0, d.y * Pi - Pi / 2.0, d.z * Pi / 2.0 - Pi / 4.0)
  }

  /** The outcome of looking a presented key up. */
  datatype Auth = MissingKey | InvalidKey | Authorized(id: KeyId)

  /** The rows the key query returns: the active keys whose stored digest is `hash`. */
  function ActiveMatches(keys: map<KeyId, ApiKey>, hash: string): set<KeyId> {
    set id | id in keys && keys[id].keyHash == hash && keys[id].isActive
  }

  /**
   * Authentication of a create request: an absent or empty key header is
   * missing; otherwise the key's digest must match exactly one active key
   * (no match, or several, is an invalid key).
   */
  function Authenticate(keys: map<KeyId, ApiKey>, apiKey: Option<string>, sha256: string -> string): (a: Auth)
    ensures a.MissingKey? <==> apiKey.None? || apiKey.value == ""
    ensures a.Authorized? <==> apiKey.Some? && apiKey.value != "" && |ActiveMatches(keys, sha256(apiKey.value))| == 1
    ensures a.Authorized? ==>
              && ActiveMatches(keys, sha256(apiKey.value)) == {a.id}
              && a.id in keys && keys[a.id].isActive && keys[a.id].keyHash == sha256(apiKey.value)
  {
    if apiKey.None? || apiKey.value == "" then MissingKey
    else
      var matches := ActiveMatches(keys, sha256(apiKey.value));
      if |matches| != 1 then InvalidKey
      else
        SingletonIsUnique(matches);
        var id :| id in matches;
        Authorized(id)
  }

  lemma SingletonIsUnique<T>(s: set<T>)
    requires |s| == 1
    ensures forall a, b :: a in s && b in s ==> a == b
  {
    var x :| x in s;
    assert |s - {x}| == 0;
  }

  /** The profile query of create: the account's row, or nothing when it has none. */
  function ProfileOf(profiles: map<UserId, Profile>, userId: UserId): Option<Profile> {
    if userId in profiles then Some(profiles[userId]) else None
  }

  /**
   * The session query of verify, an inner join with the key table: a token
   * is found only when its session exists and that session's key row does too.
   */
  predicate Found(sessions: map<Token, Session>, keys: map<KeyId, ApiKey>, token: Token) {
    token in sessions && sessions[token].apiKeyId in keys
  }

  /**
   * The join does not look at `isActive`: once a session's key is revoked,
   * that key no longer authenticates a create, but the session it created
   * is still found and can still be verified.
   */
  lemma RevokedKeyKeepsSessions(keys: map<KeyId, ApiKey>, sessions: map<Token, Session>, token: Token,
                                apiKey: Option<string>, sha256: string -> string)
    requires Found(sessions, keys, token)
    ensures var id := sessions[token].apiKeyId;
            var revoked := keys[id := keys[id].(isActive := false)];
            && Found(sessions, revoked, token)
            && Authenticate(revoked, apiKey, sha256) != Authorized(id)
  {
  }

  /** The field check of verify: an empty token is rejected like an absent one. */
  predicate WellFormedRequest(sessionToken: Option<Token>, userRotation: Option<Rotation>) {
    sessionToken.Some? && sessionToken.value != "" && userRotation.Some?
  }

  class Store {
    var keys: map<KeyId, ApiKey>
    var profiles: map<UserId, Profile>
    var sessions: map<Token, Session>
    var analytics: seq<AnalyticsEvent>

    /** Every session row is well formed. */
    ghost predicate Valid()
      reads this
    {
      forall t :: t in sessions ==> WellFormed(sessions[t])
    }

    /** No account has used more than its quota. */
    ghost predicate WithinQuota()
      reads this
    {
      forall u :: u in profiles ==> profiles[u].callsUsed <= profiles[u].callsLimit
    }

    /** A store over existing keys and profiles, with no sessions and no analytics yet. */
    constructor (keys: map<KeyId, ApiKey>, profiles: map<UserId, Profile>)
      ensures this.keys == keys && this.profiles == profiles
      ensures sessions == map[] && analytics == []
      ensures Valid()
    {
      this.keys := keys;
      this.profiles := profiles;
      sessions := map[];
      analytics := [];
    }

    /**
     * POST /create: authenticate the key, check the account's quota, insert a
     * session under `token`, stamp the key's last use and charge the account.
     * `profileReadFails` says whether the profile query fails; the handler
     * discards that error and goes on as if the account had no profile.
     */
    method Create(apiKey: Option<string>, sha256: string -> string, draws: Draws, token: Token,
                  clientIp: Option<string>, userAgent: Option<string>, now: Time,
                  profileReadFails: bool, insertFault: bool)
      returns (r: CreateResponse)
      requires ValidDraws(draws)
      modifies this
      ensures var a := Authenticate(old(keys), apiKey, sha256);
              !a.Authorized? ==>
                r == CreateError(401, if a.MissingKey? then MissingKeyMessage else InvalidKeyMessage)
      ensures var a := Authenticate(old(keys), apiKey, sha256);
              a.Authorized? ==>
                var key := old(keys)[a.id];
                var profile := if profileReadFails then None else ProfileOf(old(profiles), key.userId);
                if !Admits(profile) then
                  r == CreateError(429, LimitExceededMessage)
                else if insertFault || token in old(sessions) then
                  r == CreateError(500, CreateFailedMessage)
                else
                  && r == Created(token, TargetRotation(draws), SessionTtl)
                  && sessions == old(sessions)[token := NewSession(a.id, TargetRotation(draws), clientIp, userAgent, now)]
                  && keys == old(keys)[a.id := key.(lastUsedAt := Some(now))]
                  && profiles == if key.userId in old(profiles)
                                 then old(profiles)[key.userId := old(profiles)[key.userId].(callsUsed := UsedAfterCreate(profile))]
                                 else old(profiles)
      // Charging: one call more when the profile was read; reset to 1 when its read failed.
      ensures var a := Authenticate(old(keys), apiKey, sha256);
              r.Created? && a.Authorized? && old(keys)[a.id].userId in old(profiles) ==>
                var u := old(keys)[a.id].userId;
                profiles[u] == if profileReadFails then old(profiles)[u].(callsUsed := 1) else Charge(old(profiles)[u])
      // A refused request changes no table; an accepted one adds exactly one new session.
      ensures !r.Created? ==> unchanged(this)
      ensures r.Created? ==> token !in old(sessions) && sessions.Keys == old(sessions).Keys + {token}
      // What create inserted, verify finds; and a create never changes which keys authenticate.
      ensures r.Created? ==> Found(sessions, keys, token)
      ensures forall h :: ActiveMatches(keys, h) == ActiveMatches(old(keys), h)
      ensures analytics == old(analytics)
      ensures forall t :: t in old(sessions) ==> t in sessions && sessions[t] == old(sessions)[t]
      ensures old(Valid()) ==> Valid()
      ensures old(WithinQuota()) && !profileReadFails ==> WithinQuota()
    {
      var auth := Authenticate(keys, apiKey, sha256);
      if auth.MissingKey? {
        return CreateError(401, MissingKeyMessage);
      }
      if auth.InvalidKey? {
        return CreateError(401, InvalidKeyMessage);
      }
      var key := keys[auth.id];
      var profile := if profileReadFails then None else ProfileOf(profiles, key.userId);
      if !Admits(profile) {
        return CreateError(429, LimitExceededMessage);
      }
      var target := TargetRotation(draws);
      if insertFault || token in sessions {
        return CreateError(500, CreateFailedMessage);
      }
      sessions := sessions[token := NewSession(auth.id, target, clientIp, userAgent, now)];
      keys := keys[auth.id := key.(lastUsedAt := Some(now))];
      if key.userId in profiles {
        profiles := profiles[key.userId := profiles[key.userId].(callsUsed := UsedAfterCreate(profile))];
      }
      return Created(token, target, SessionTtl);
    }

    /**
     * POST /verify: check the request, find the session, and let
     * `VerifySession` decide on it with the error of the submitted rotation.
     */
    method Verify(sessionToken: Option<Token>, userRotation: Option<Rotation>, trig: Trig, now: Time)
      returns (r: VerifyResponse)
      modifies this
      ensures !WellFormedRequest(sessionToken, userRotation) ==>
                r == VerifyError(400, MissingFieldsMessage) && unchanged(this)
      ensures WellFormedRequest(sessionToken, userRotation) && !Found(old(sessions), old(keys), sessionToken.value) ==>
                r == VerifyError(404, InvalidTokenMessage) && unchanged(this)
      ensures WellFormedRequest(sessionToken, userRotation) && Found(old(sessions), old(keys), sessionToken.value) ==>
                var s := old(sessions)[sessionToken.value];
                var o := VerifySession(s, old(keys)[s.apiKeyId].userId, ErrorDegrees(trig, s.target, userRotation.value), now);
                && r == o.response
                && sessions == old(sessions)[sessionToken.value := o.session]
                && analytics == old(analytics) + ToSeq(o.event)
      ensures keys == old(keys) && profiles == old(profiles)
      ensures sessions.Keys == old(sessions).Keys
      ensures forall t :: t in old(sessions) && old(sessions)[t].isVerified ==> sessions[t] == old(sessions)[t]
      ensures old(Valid()) ==> Valid()
      // On a valid store, a repeated answer reports the error that verified the session.
      ensures old(Valid()) && r.AlreadyVerified? ==> r.storedError.Some? && r.storedError.value < ThresholdDegrees
    {
      if sessionToken.None? || sessionToken.value == "" || userRotation.None? {
        return VerifyError(400, MissingFieldsMessage);
      }
      var token := sessionToken.value;
      if token !in sessions || sessions[token].apiKeyId !in keys {
        return VerifyError(404, InvalidTokenMessage);
      }
      var session := sessions[token];
      var userId := keys[session.apiKeyId].userId;
      if session.expiresAt < now {
        assert sessions == sessions[token := session];
        return VerifyError(410, ExpiredMessage);
      }
      if session.isVerified {
        assert sessions == sessions[token := session];
        return AlreadyVerified(session.errorDegrees);
      }
      var angleDeg := ErrorDegrees(trig, session.target, userRotation.value);
      var isVerified := angleDeg < ThresholdDegrees;
      var newAttempts := session.attempts + 1;
      sessions := sessions[token := session.(isVerified := isVerified, attempts := newAttempts,
                                             errorDegrees := Some(angleDeg),
                                             verifiedAt := if isVerified then Some(now) else None)];
      if isVerified || newAttempts >= MaxAttempts {
        analytics := analytics + [AnalyticsEvent(userId, isVerified, angleDeg, newAttempts)];
      }
      return Scored(isVerified, angleDeg, newAttempts, MaxAttempts);
    }
  }

  /**
   * A client that creates a session and answers it with exactly the target it
   * was given, before the session expires, is verified on its first attempt
   * with zero error, and one success is recorded.
   */
  method CreateThenAnswerExactly(store: Store, apiKey: Option<string>, sha256: string -> string, draws: Draws,
                                 token: Token, clientIp: Option<string>, userAgent: Option<string>,
                                 createdAt: Time, trig: Trig, answeredAt: Time,
                                 profileReadFails: bool, insertFault: bool)
    returns (c: CreateResponse, v: Option<VerifyResponse>)
    requires ValidDraws(draws) && Sane(trig) && token != ""
    requires createdAt <= answeredAt <= createdAt + SessionTtl
    modifies store
    ensures c.Created? <==> v.Some?
    ensures c.Created? ==> v.value == Scored(true, 0.0, 1, MaxAttempts)
    ensures c.Created? ==>
              |store.analytics| == |old(store.analytics)| + 1 && store.analytics[|old(store.analytics)|].success
  {
    c := store.Create(apiKey, sha256, draws, token, clientIp, userAgent, createdAt, profileReadFails, insertFault);
    if c.Created? {
      ExactAnswerScoresZero(trig, c.targetRotation);
      var r := store.Verify(Some(c.sessionToken), Some(c.targetRotation), trig, answeredAt);
      v := Some(r);
    } else {
      v := None;
    }
  }
}
