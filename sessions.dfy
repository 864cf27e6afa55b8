/**
 * A challenge session (a `captcha_sessions` row) and what one verify request
 * does to it once the request is well formed and the session has been found:
 * the expiry check, the already-verified short-circuit, and the scoring of an
 * attempt with its analytics record.
 */
module Sessions {
  import opened Wrappers
  import opened Geometry

  /** An instant, in seconds. */
  type Time = int
  type KeyId = string
  type UserId = string

  /** Seconds a session stays open; the create response advertises it as `expires_in`. */
  const SessionTtl: int := 600
  /** The `max_attempts` reported by verify, and the attempt count from which analytics fire. */
  const MaxAttempts: nat := 10
  /** An answer scores as verified when its error is strictly below this many degrees. */
  const ThresholdDegrees: real := 35.0

  const ExpiredMessage: string := "Session expired"

  datatype Session = Session(
    apiKeyId: KeyId,
    target: Rotation,
    clientIp: string,
    userAgent: string,
    createdAt: Time,
    expiresAt: Time,
    attempts: nat,
    isVerified: bool,
    errorDegrees: Option<real>,
    verifiedAt: Option<Time>)

  /** One call of the `update_verification_analytics` procedure. */
  datatype AnalyticsEvent = AnalyticsEvent(userId: UserId, success: bool, errorDegrees: real, attempts: nat)

  /** The responses of /verify; `VerifyError` carries the HTTP status. */
  datatype VerifyResponse =
    | Scored(verified: bool, errorDegrees: real, attempts: nat, maxAttempts: nat)
    | AlreadyVerified(storedError: Option<real>)
    | VerifyError(status: int, message: string)

  /** The session after a verify request, the response, and the analytics record it fires, if any. */
  datatype Outcome = Outcome(session: Session, response: VerifyResponse, event: Option<AnalyticsEvent>)

  /** A request header, with an absent or empty value recorded as "unknown". */
  function OrUnknown(h: Option<string>): (v: string)
    ensures h.None? || h.value == "" ==> v == "unknown"
    ensures h.Some? && h.value != "" ==> v == h.value
    ensures v != ""
  {
    if h.None? || h.value == "" then "unknown" else h.value
  }

  /** The fields of a session that only create writes. */
  predicate SameChallenge(s: Session, t: Session) {
    && s.apiKeyId == t.apiKeyId
    && s.target == t.target
    && s.clientIp == t.clientIp
    && s.userAgent == t.userAgent
    && s.createdAt == t.createdAt
    && s.expiresAt == t.expiresAt
  }

  /**
   * What holds of every session this service writes: it is verified exactly
   * when it has a verification time, which falls no later than its expiry
   * (verify's expiry check and its time stamp read the one clock `now`);
   * it has a recorded error exactly when it has been scored at least once,
   * and a verified session's recorded error is under the threshold; it
   * expires a fixed time after its creation.
   */
  predicate WellFormed(s: Session) {
    && (s.isVerified <==> s.verifiedAt.Some?)
    && (s.verifiedAt.Some? ==> s.verifiedAt.value <= s.expiresAt)
    && (s.attempts == 0 <==> s.errorDegrees.None?)
    && (s.isVerified ==> s.errorDegrees.Some? && s.errorDegrees.value < ThresholdDegrees)
    && s.expiresAt == s.createdAt + SessionTtl
  }

  /**
   * The row create inserts. The attempt count, the verified flag, the
   * recorded error and the expiry are database defaults: 0, false, none and
   * ten minutes after creation.
   */
  function NewSession(apiKeyId: KeyId, target: Rotation, clientIp: Option<string>, userAgent: Option<string>, now: Time): (s: Session)
    ensures WellFormed(s)
    ensures s.attempts == 0 && !s.isVerified && s.expiresAt == now + SessionTtl
    ensures s.apiKeyId == apiKeyId && s.target == target
  {
    Session(apiKeyId, target, OrUnknown(clientIp), OrUnknown(userAgent), now, now + SessionTtl, 0, false, None, None)
  }

  /**
   * A verify request on a found session `s` of account `userId`, at time
   * `now`, whose answer is `errorDeg` degrees away from the target.
   */
  function VerifySession(s: Session, userId: UserId, errorDeg: real, now: Time): (o: Outcome)
    // Expired exactly when the expiry lies strictly before now; expiry is checked first.
    ensures o.response.VerifyError? <==> s.expiresAt < now
    ensures o.response.VerifyError? ==> o.response == VerifyError(410, ExpiredMessage)
    // An attempt is scored exactly when the session is open and not yet verified.
    ensures o.response.Scored? <==> now <= s.expiresAt && !s.isVerified
    ensures o.response.AlreadyVerified? ==> o.response.storedError == s.errorDegrees
    ensures o.response.AlreadyVerified? && WellFormed(s) ==>
              o.response.storedError.Some? && o.response.storedError.value < ThresholdDegrees
    // Unless an attempt is scored, nothing is written and nothing is reported.
    ensures !o.response.Scored? ==> o.session == s && o.event.None?
    // A scored attempt: counted once, verified exactly below the threshold, reported as stored.
    ensures o.response.Scored? ==>
              && o.session.attempts == s.attempts + 1
              && o.session.isVerified == (errorDeg < ThresholdDegrees)
              && o.session.errorDegrees == Some(errorDeg)
              && o.session.verifiedAt == (if o.session.isVerified then Some(now) else None)
              && o.response == Scored(o.session.isVerified, errorDeg, o.session.attempts, MaxAttempts)
    // Analytics fire exactly on a success or on a failure at or past the attempt cap.
    ensures o.event.Some? <==> o.response.Scored? && (o.response.verified || o.response.attempts >= MaxAttempts)
    ensures o.event.Some? ==> o.event.value == AnalyticsEvent(userId, o.response.verified, errorDeg, o.response.attempts)
    // The challenge itself never changes, and a verified session never reverts.
    ensures SameChallenge(s, o.session)
    ensures s.isVerified ==> o.session == s
    ensures WellFormed(s) ==> WellFormed(o.session)
  {
    if s.expiresAt < now then
      Outcome(s, VerifyError(410, ExpiredMessage), None)
    else if s.isVerified then
      Outcome(s, AlreadyVerified(s.errorDegrees), None)
    else
      var isVerified := errorDeg < ThresholdDegrees;
      var newAttempts := s.attempts + 1;
      var after := s.(isVerified := isVerified, attempts := newAttempts, errorDegrees := Some(errorDeg),
                      verifiedAt := if isVerified then Some(now) else None);
      var event := if isVerified || newAttempts >= MaxAttempts
                   then Some(AnalyticsEvent(userId, isVerified, errorDeg, newAttempts)) else None;
      Outcome(after, Scored(isVerified, errorDeg, newAttempts, MaxAttempts), event)
  }

  /** One verify request against a session: the error of its answer and the time it arrives. */
  datatype Attempt = Attempt(errorDeg: real, now: Time)

  /** A series of verify requests on one session: the final session and the analytics records fired. */
  function Run(s: Session, userId: UserId, calls: seq<Attempt>): (Session, seq<AnalyticsEvent>)
    decreases |calls|
  {
    if calls == [] then (s, [])
    else
      var o := VerifySession(s, userId, calls[0].errorDeg, calls[0].now);
      var (t, events) := Run(o.session, userId, calls[1..]);
      (t, ToSeq(o.event) + events)
  }

  function Successes(events: seq<AnalyticsEvent>): (n: nat)
    ensures n <= |events|
  {
    if events == [] then 0 else (if events[0].success then 1 else 0) + Successes(events[1..])
  }

  lemma ReportedThenRest(e: Option<AnalyticsEvent>, events: seq<AnalyticsEvent>)
    ensures Successes(ToSeq(e) + events) == Successes(ToSeq(e)) + Successes(events)
  {
    if e.Some? {
      assert (ToSeq(e) + events)[1..] == events;
    } else {
      assert ToSeq(e) + events == events;
    }
  }

  /** Attempts beyond the ninth: the number of failed attempts that fire analytics. */
  function Excess(attempts: nat): nat {
    if attempts >= MaxAttempts then attempts - (MaxAttempts - 1) else 0
  }

  /** Once verified, a session is read-only: no request changes it or reports on it again. */
  lemma {:induction false} VerifiedSessionIsFinal(s: Session, userId: UserId, calls: seq<Attempt>)
    requires s.isVerified
    ensures Run(s, userId, calls) == (s, [])
    decreases |calls|
  {
    if calls != [] {
      VerifiedSessionIsFinal(s, userId, calls[1..]);
      var o := VerifySession(s, userId, calls[0].errorDeg, calls[0].now);
      assert o.session == s && ToSeq(o.event) == [];
      assert Run(s, userId, calls) == (s, ToSeq(o.event) + []);
      assert ToSeq(o.event) + [] == [];
    }
  }

  /**
   * Over any series of requests the challenge is unchanged, the attempt count
   * grows by at most one per request, the verified flag never reverts, every
   * analytics record comes with an attempt, and well-formedness is kept.
   */
  lemma {:induction false} RunProgress(s: Session, userId: UserId, calls: seq<Attempt>)
    ensures var (t, events) := Run(s, userId, calls);
            && SameChallenge(s, t)
            && s.attempts <= t.attempts <= s.attempts + |calls|
            && (s.isVerified ==> t.isVerified)
            && |events| <= t.attempts - s.attempts
            && (WellFormed(s) ==> WellFormed(t))
    decreases |calls|
  {
    if calls != [] {
      var o := VerifySession(s, userId, calls[0].errorDeg, calls[0].now);
      RunProgress(o.session, userId, calls[1..]);
    }
  }

  /** A session is reported as a success once, in the request that verifies it, and never otherwise. */
  lemma {:induction false} SuccessReportedOnce(s: Session, userId: UserId, calls: seq<Attempt>)
    ensures var (t, events) := Run(s, userId, calls);
            Successes(events) == if !s.isVerified && t.isVerified then 1 else 0
    decreases |calls|
  {
    if calls != [] {
      var o := VerifySession(s, userId, calls[0].errorDeg, calls[0].now);
      SuccessReportedOnce(o.session, userId, calls[1..]);
      var (t, events) := Run(o.session, userId, calls[1..]);
      if o.session.isVerified && !s.isVerified {
        VerifiedSessionIsFinal(o.session, userId, calls[1..]);
      }
      assert Run(s, userId, calls).1 == ToSeq(o.event) + events;
      ReportedThenRest(o.event, events);
    }
  }

  /**
   * Open, unverified and answered badly every time, a session takes one
   * attempt per request and stays unverified; analytics record a failure on
   * the tenth attempt and again on every attempt after it.
   */
  lemma {:induction false} FailedAttempts(s: Session, userId: UserId, calls: seq<Attempt>)
    requires !s.isVerified
    requires forall i :: 0 <= i < |calls| ==> calls[i].now <= s.expiresAt && calls[i].errorDeg >= ThresholdDegrees
    ensures var (t, events) := Run(s, userId, calls);
            && t.attempts == s.attempts + |calls|
            && !t.isVerified
            && |events| == Excess(s.attempts + |calls|) - Excess(s.attempts)
            && Successes(events) == 0
    decreases |calls|
  {
    if calls != [] {
      var o := VerifySession(s, userId, calls[0].errorDeg, calls[0].now);
      FailedAttempts(o.session, userId, calls[1..]);
      var (t, events) := Run(o.session, userId, calls[1..]);
      assert Run(s, userId, calls) == (t, ToSeq(o.event) + events);
      ReportedThenRest(o.event, events);
    }
  }

  /** There is no attempt cap: a close answer verifies an open session however many attempts it has used. */
  lemma LateCloseAnswerVerifies(s: Session, userId: UserId, errorDeg: real, now: Time)
    requires !s.isVerified && s.attempts >= MaxAttempts && now <= s.expiresAt
    requires errorDeg < ThresholdDegrees
    ensures var o := VerifySession(s, userId, errorDeg, now);
            o.session.isVerified && o.response.Scored? && o.response.verified && o.response.attempts > MaxAttempts
  {
  }

  /** Answering an open, unverified session with exactly its target verifies it with zero error. */
  lemma ExactAnswerVerifies(t: Trig, s: Session, userId: UserId, now: Time)
    requires Sane(t) && !s.isVerified && now <= s.expiresAt
    ensures var o := VerifySession(s, userId, ErrorDegrees(t, s.target, s.target), now);
            && o.response == Scored(true, 0.0, s.attempts + 1, MaxAttempts)
            && o.event == Some(AnalyticsEvent(userId, true, 0.0, s.attempts + 1))
  {
    ExactAnswerScoresZero(t, s.target);
  }
}
