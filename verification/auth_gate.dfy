/** The bearer-token gate in front of every board route (the header form is
    that of section 2.1 of RFC 6750). Token verification and the session
    lookup are supplied as functions, since their implementations are not
    part of this model; `None` / `LookupFailed` stand for an exception. */
module AuthGate {
  import opened Wrappers
  import opened Strings

  const BEARER_PREFIX: string := "Bearer "

  const MSG_BAD_HEADER: string := "Missing or invalid authorization header"
  const MSG_BAD_SESSION: string := "Invalid or expired session"
  const MSG_FAILED: string := "Authentication failed"

  /** The verified token payload that becomes `req.user`. */
  datatype Payload = Payload(userId: string, email: string)

  datatype Lookup = LookupFailed | NoSession | Session(expiresAt: int)

  /** `Next(user)`: the route handler runs with `req.user == user`;
      `Reject`: the response is sent and the handler never runs. */
  datatype Decision = Next(user: Payload) | Reject(status: int, message: string)

  /** The token is the header with its first seven characters removed. */
  function Token(header: string): string
    requires |header| >= |BEARER_PREFIX|
  {
    header[|BEARER_PREFIX|..]
  }

  predicate WellFormedHeader(header: Option<string>) {
    header.Some? && StartsWith(header.value, BEARER_PREFIX)
  }

  function Authenticate(header: Option<string>, verify: string -> Option<Payload>,
                        lookup: string -> Lookup, now: int): (d: Decision)
    ensures d.Reject? ==> d.status == 401
    ensures d.Next? <==>
      && WellFormedHeader(header)
      && verify(Token(header.value)).Some?
      && lookup(Token(header.value)).Session?
      && now <= lookup(Token(header.value)).expiresAt
    ensures d.Next? ==> d.user == verify(Token(header.value)).value
    ensures !WellFormedHeader(header) ==> d == Reject(401, MSG_BAD_HEADER)
  {
    if header.None? || !StartsWith(header.value, BEARER_PREFIX) then
      Reject(401, MSG_BAD_HEADER)
    else
      var token := Token(header.value);
      var payload := verify(token);
      if payload.None? then Reject(401, MSG_FAILED)
      else
        var session := lookup(token);
        if session.LookupFailed? then Reject(401, MSG_FAILED)
        else if session.NoSession? || session.expiresAt < now then Reject(401, MSG_BAD_SESSION)
        else Next(payload.value)
  }

  /** A session expiring exactly now is still accepted; one that expired a
      millisecond ago is not, and neither is a lower-case scheme name. */
  lemma ExpiryBoundary(token: string, p: Payload, t: int)
    ensures Authenticate(Some("Bearer " + token), _ => Some(p), _ => Session(t), t) == Next(p)
    ensures Authenticate(Some("Bearer " + token), _ => Some(p), _ => Session(t - 1), t)
         == Reject(401, MSG_BAD_SESSION)
    ensures Authenticate(Some("bearer " + token), _ => Some(p), _ => Session(t), t)
         == Reject(401, MSG_BAD_HEADER)
  {
    var h := "Bearer " + token;
    assert StartsWith(h, BEARER_PREFIX) by { assert h[..7] == BEARER_PREFIX; }
    assert Token(h) == token;
    var l := "bearer " + token;
    assert l[0] != BEARER_PREFIX[0];
  }

  /** Every failure is a 401, but the three failure kinds carry different
      messages, so a client can tell a malformed header from an expired
      session. */
  lemma RejectionsDifferOnlyInMessage(p: Payload, t: int)
    ensures Authenticate(None, _ => Some(p), _ => Session(t), t).message == MSG_BAD_HEADER
    ensures Authenticate(Some("Bearer x"), _ => None, _ => Session(t), t) == Reject(401, MSG_FAILED)
    ensures Authenticate(Some("Bearer x"), _ => Some(p), _ => LookupFailed, t) == Reject(401, MSG_FAILED)
    ensures Authenticate(Some("Bearer x"), _ => Some(p), _ => NoSession, t) == Reject(401, MSG_BAD_SESSION)
    ensures MSG_BAD_HEADER != MSG_BAD_SESSION && MSG_BAD_SESSION != MSG_FAILED && MSG_FAILED != MSG_BAD_HEADER
  {
    assert StartsWith("Bearer x", BEARER_PREFIX) by { assert "Bearer x"[..7] == BEARER_PREFIX; }
  }
}
