/**
 * pkg/token/payload.go: the claims carried by an access token. The uuid
 * generator and the two `time.Now()` readings are inputs; times and
 * durations are integers in one unit (Go's nanoseconds).
 */
module TokenPayload {
  import opened Wrappers

  const ErrExpiredToken: string := "token has expired"
  const ErrInvalidToken: string := "token is invalid"

  datatype TokenParams = TokenParams(userId: int, email: string, userType: string, duration: int)

  datatype Payload = Payload(
    id: string, userId: int, email: string, userType: string, issuedAt: int, expiresAt: int)

  /**
   * `NewPayload`: `tokenId` is what `uuid.NewRandom()` gave (None is its
   * error); `issuedNow` and `expiryNow` are the two successive clock readings.
   */
  function NewPayload(p: TokenParams, tokenId: Option<string>, issuedNow: int, expiryNow: int): (r: Result<Payload, string>)
    requires issuedNow <= expiryNow
    ensures tokenId.None? <==> r.Err?
    ensures r.Ok? ==> r.value.id == tokenId.value
    ensures r.Ok? ==> r.value.userId == p.userId && r.value.email == p.email && r.value.userType == p.userType
    ensures r.Ok? ==> r.value.issuedAt == issuedNow && r.value.expiresAt >= r.value.issuedAt + p.duration
  {
    match tokenId
    case None => Err("uuid")
    case Some(id) => Ok(Payload(id, p.userId, p.email, p.userType, issuedNow, expiryNow + p.duration))
  }

  /** `Payload.Valid` at clock reading `now`: `ErrExpiredToken` iff `now` is after `ExpiresAt`. */
  function Valid(p: Payload, now: int): (r: Option<string>)
    ensures r.Some? <==> now > p.expiresAt
    ensures r.Some? ==> r.value == ErrExpiredToken
  {
    if now > p.expiresAt then Some(ErrExpiredToken) else None
  }

  /** A payload is still valid at the very instant it expires. */
  lemma ValidAtExpiry(p: Payload)
    ensures Valid(p, p.expiresAt) == None
  {
  }

  /**
   * With a monotone clock, a payload built with a non-negative duration is
   * valid until `Duration` has passed since it was issued.
   */
  lemma {:induction false} ValidWithinDuration(p: TokenParams, id: string, t1: int, t2: int, now: int)
    requires t1 <= t2 && p.duration >= 0
    requires t1 <= now <= t1 + p.duration
    ensures NewPayload(p, Some(id), t1, t2).Ok?
    ensures Valid(NewPayload(p, Some(id), t1, t2).value, now) == None
  {
    var r := NewPayload(p, Some(id), t1, t2);
    assert r.value.expiresAt >= t1 + p.duration;
  }

  /**
   * A negative duration gives a payload that is already expired at any
   * later clock reading: verification reports `ErrExpiredToken`.
   */
  lemma {:induction false} NegativeDurationExpired(p: TokenParams, id: string, t1: int, t2: int, now: int)
    requires t1 <= t2 <= now && p.duration < 0
    ensures NewPayload(p, Some(id), t1, t2).Ok?
    ensures Valid(NewPayload(p, Some(id), t1, t2).value, now) == Some(ErrExpiredToken)
  {
    var r := NewPayload(p, Some(id), t1, t2);
    assert r.value.expiresAt == t2 + p.duration < now;
  }
}
