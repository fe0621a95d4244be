/**
 * api/v1/middleware.go: the bearer-token gate in front of the protected
 * routes (section 2.1 of RFC 6750, with the scheme name compared without
 * regard to case as section 2.1 of RFC 7235 asks) and the read-back of the
 * stored claims. Token verification is a parameter.
 */
module Middleware {
  import opened Wrappers
  import opened Text
  import opened Http
  import TokenPayload

  const AuthorizationHeaderKey: string := "authorization"
  const AuthorizationTypeBearer: string := "bearer"
  const AuthorizationPayloadKey: string := "authorization_payload"

  const ErrHeaderNotProvided: string := "authorization header is not provided"
  const ErrInvalidHeaderFormat: string := "invalid authorization header format"
  const ErrIndexOutOfRange: string := "runtime error: index out of range"

  /** `fmt.Errorf("unsupported authorization type %s", scheme)` */
  function UnsupportedType(scheme: string): string
  {
    "unsupported authorization type " + scheme
  }

  /** `unicode.IsSpace`, the separator of `strings.Fields`. */
  predicate IsSpace(c: char)
  {
    || c == '\t' || c == '\n' || c == '\U{000B}' || c == '\U{000C}' || c == '\r' || c == ' '
    || c == '\U{0085}' || c == '\U{00A0}' || c == '\U{1680}' || '\U{2000}' <= c <= '\U{200A}'
    || c == '\U{2028}' || c == '\U{2029}' || c == '\U{202F}' || c == '\U{205F}' || c == '\U{3000}'
  }

  /** A field: a non-empty run of non-space characters. */
  predicate Word(w: string)
  {
    |w| > 0 && forall i :: 0 <= i < |w| ==> !IsSpace(w[i])
  }

  /** The length of the run of non-space characters at the start of `s`. */
  function WordLen(s: string): (n: nat)
    ensures n <= |s|
    ensures forall i :: 0 <= i < n ==> !IsSpace(s[i])
    ensures n < |s| ==> IsSpace(s[n])
  {
    if s == [] || IsSpace(s[0]) then 0 else 1 + WordLen(s[1..])
  }

  /** `strings.Fields`: the maximal runs of non-space characters, in order. */
  function Fields(s: string): (r: seq<string>)
    ensures forall i :: 0 <= i < |r| ==> Word(r[i])
    decreases |s|
  {
    if s == [] then []
    else if IsSpace(s[0]) then Fields(s[1..])
    else
      var n := WordLen(s);
      [s[..n]] + Fields(s[n..])
  }

  /** The words joined by single spaces. */
  function Spaced(ws: seq<string>): string
  {
    if ws == [] then "" else if |ws| == 1 then ws[0] else ws[0] + " " + Spaced(ws[1..])
  }

  lemma {:induction false} WordLenOfWord(w: string, rest: string)
    requires Word(w)
    requires rest == [] || IsSpace(rest[0])
    ensures WordLen(w + rest) == |w|
    decreases |w|
  {
    if |w| > 1 {
      assert (w + rest)[1..] == w[1..] + rest;
      WordLenOfWord(w[1..], rest);
    } else {
      assert (w + rest)[1..] == rest;
    }
  }

  /** Splitting words joined by spaces gives the words back. */
  lemma {:induction false} FieldsSpaced(ws: seq<string>)
    requires forall i :: 0 <= i < |ws| ==> Word(ws[i])
    ensures Fields(Spaced(ws)) == ws
  {
    if ws == [] {
    } else if |ws| == 1 {
      var w := ws[0];
      WordLenOfWord(w, "");
      assert w + "" == w;
      assert w[..|w|] == w && w[|w|..] == [];
    } else {
      var w := ws[0];
      var rest := " " + Spaced(ws[1..]);
      var s := w + rest;
      assert Spaced(ws) == s;
      WordLenOfWord(w, rest);
      assert s[..|w|] == w && s[|w|..] == rest;
      assert rest[1..] == Spaced(ws[1..]);
      FieldsSpaced(ws[1..]);
      assert Fields(rest) == Fields(rest[1..]);
      assert Fields(s) == [w] + Fields(rest);
    }
  }

  /** `h.VerifyToken`: the token claims copied into `models.AuthPayload`. */
  function ToAuthPayload(p: TokenPayload.Payload): (a: AuthPayload)
    ensures a.id == p.id && a.userId == p.userId && a.email == p.email
    ensures a.issuedAt == p.issuedAt && a.expiredAt == p.expiresAt
  {
    AuthPayload(p.id, p.userId, p.email, p.issuedAt, p.expiresAt)
  }

  /** What `tokenMaker.VerifyToken` answers for an access token. */
  type Verifier = string -> Result<TokenPayload.Payload, string>

  /**
   * One run of the middleware: the replies written (all 401), the payload
   * stored under `authorization_payload`, and whether the run panicked.
   */
  datatype Gate = Gate(replies: seq<Reply>, payload: Option<AuthPayload>, outcome: Outcome)

  function Unauthorized(error: string): Reply
  {
    Reply(StatusUnauthorized, ErrorBody(error))
  }

  /**
   * The decision `AuthMiddleware` takes on a header value. With fewer than
   * two fields it writes a 401 but goes on: no field at all, or a lone
   * `bearer`, then indexes past the end of `fields`.
   */
  function Authorize(header: string, verify: Verifier): (g: Gate)
    ensures forall i :: 0 <= i < |g.replies| ==> g.replies[i].status == StatusUnauthorized
    ensures header == "" ==> g == Gate([Unauthorized(ErrHeaderNotProvided)], None, Done)
    ensures g.outcome.Panicked? <==>
      header != "" && (|Fields(header)| == 0 || (|Fields(header)| == 1 && Lower(Fields(header)[0]) == AuthorizationTypeBearer))
    ensures g.payload.Some? <==>
      header != "" && |Fields(header)| >= 2 && Lower(Fields(header)[0]) == AuthorizationTypeBearer
      && verify(Fields(header)[1]).Ok?
    ensures g.payload.Some? ==> g.replies == [] && g.payload.value == ToAuthPayload(verify(Fields(header)[1]).value)
    ensures g.payload.None? && g.outcome == Done ==> |g.replies| >= 1
  {
    if |header| == 0 then Gate([Unauthorized(ErrHeaderNotProvided)], None, Done)
    else
      var fields := Fields(header);
      var first := if |fields| < 2 then [Unauthorized(ErrInvalidHeaderFormat)] else [];
      if |fields| == 0 then Gate(first, None, Panicked(ErrIndexOutOfRange))
      else
        var scheme := Lower(fields[0]);
        if scheme != AuthorizationTypeBearer then Gate(first + [Unauthorized(UnsupportedType(scheme))], None, Done)
        else if |fields| < 2 then Gate(first, None, Panicked(ErrIndexOutOfRange))
        else
          match verify(fields[1])
          case Err(e) => Gate([Unauthorized(e)], None, Done)
          case Ok(p) => Gate([], Some(ToAuthPayload(p)), Done)
  }

  /**
   * A header `<scheme> <token> ...` whose scheme is `bearer` in any case
   * hands exactly the second field to the verifier; later fields are ignored.
   */
  lemma {:induction false} BearerTokenIsSecondField(ws: seq<string>, verify: Verifier)
    requires |ws| >= 2 && forall i :: 0 <= i < |ws| ==> Word(ws[i])
    requires Lower(ws[0]) == AuthorizationTypeBearer
    ensures Authorize(Spaced(ws), verify) ==
      match verify(ws[1])
      case Err(e) => Gate([Unauthorized(e)], None, Done)
      case Ok(p) => Gate([], Some(ToAuthPayload(p)), Done)
  {
    FieldsSpaced(ws);
    assert Spaced(ws) != "" by {
      assert Spaced(ws) == ws[0] + " " + Spaced(ws[1..]);
    }
  }

  /** Any scheme other than `bearer` (after lower-casing) is refused with a final 401. */
  lemma {:induction false} OtherSchemeRefused(header: string, verify: Verifier)
    requires |Fields(header)| >= 1 && Lower(Fields(header)[0]) != AuthorizationTypeBearer
    ensures var g := Authorize(header, verify);
      g.outcome == Done && g.payload.None? && |g.replies| >= 1
      && g.replies[|g.replies| - 1] == Unauthorized(UnsupportedType(Lower(Fields(header)[0])))
  {
    assert header != "";
  }

  /**
   * A lone field that is not `bearer` gets two 401 replies, one for the
   * format and one for the scheme: the missing `return` after the first.
   */
  lemma {:induction false} LoneFieldTwoReplies(w: string, verify: Verifier)
    requires Word(w) && Lower(w) != AuthorizationTypeBearer
    ensures Authorize(w, verify) ==
      Gate([Unauthorized(ErrInvalidHeaderFormat), Unauthorized(UnsupportedType(Lower(w)))], None, Done)
  {
    FieldsSpaced([w]);
    assert Spaced([w]) == w;
  }

  /** A lone `bearer` field with no token reaches `fields[1]`: an index-out-of-range panic. */
  lemma {:induction false} LoneBearerPanics(w: string, verify: Verifier)
    requires Word(w) && Lower(w) == AuthorizationTypeBearer
    ensures Authorize(w, verify) == Gate([Unauthorized(ErrInvalidHeaderFormat)], None, Panicked(ErrIndexOutOfRange))
  {
    FieldsSpaced([w]);
    assert Spaced([w]) == w;
  }

  /** The header `Bearer` itself is such a field. */
  lemma {:induction false} BareBearerPanics(verify: Verifier)
    ensures Authorize("Bearer", verify) == Gate([Unauthorized(ErrInvalidHeaderFormat)], None, Panicked(ErrIndexOutOfRange))
  {
    assert Word("Bearer");
    assert Lower("Bearer") == "bearer" by {
      assert LowerChar('B') == 'b';
    }
    LoneBearerPanics("Bearer", verify);
  }

  /**
   * `AuthMiddleware`: writes the gate's replies (aborting the chain), or
   * stores the payload and continues the chain.
   */
  method AuthMiddleware(ctx: Context, verify: Verifier) returns (outcome: Outcome)
    modifies ctx
    ensures var g := Authorize(Lookup(ctx.headers, AuthorizationHeaderKey), verify);
      && outcome == g.outcome
      && ctx.replies == old(ctx.replies) + g.replies
      && ctx.aborted == (old(ctx.aborted) || g.replies != [])
      && ctx.keys == (if g.payload.Some? then old(ctx.keys)[AuthorizationPayloadKey := PayloadValue(g.payload.value)] else old(ctx.keys))
      && ctx.continued == (old(ctx.continued) || g.payload.Some?)
  {
    var header := Lookup(ctx.headers, AuthorizationHeaderKey);
    if |header| == 0 {
      ctx.AbortWithStatusJson(StatusUnauthorized, ErrorBody(ErrHeaderNotProvided));
      return Done;
    }
    var fields := Fields(header);
    if |fields| < 2 {
      ctx.AbortWithStatusJson(StatusUnauthorized, ErrorBody(ErrInvalidHeaderFormat));
    }
    if |fields| == 0 {
      return Panicked(ErrIndexOutOfRange);
    }
    var scheme := Lower(fields[0]);
    if scheme != AuthorizationTypeBearer {
      ctx.AbortWithStatusJson(StatusUnauthorized, ErrorBody(UnsupportedType(scheme)));
      return Done;
    }
    if |fields| < 2 {
      return Panicked(ErrIndexOutOfRange);
    }
    var accessToken := fields[1];
    match verify(accessToken)
    case Err(e) =>
      ctx.AbortWithStatusJson(StatusUnauthorized, ErrorBody(e));
      return Done;
    case Ok(p) =>
      ctx.Set(AuthorizationPayloadKey, PayloadValue(ToAuthPayload(p)));
      ctx.Next();
      return Done;
  }

  /** The middleware's `Payload`: RFC 3339 times are kept as integers; `UserType` is never set. */
  datatype Payload = Payload(id: string, userId: int, email: string, userType: string, issuedAt: int, expiredAt: int)

  const ErrPayloadNotFound: string := "not found"
  const ErrUnknownUser: string := "unknown user"

  /**
   * `GetAuthPayload` on the context keys: "not found" without the key,
   * "unknown user" when it holds something else, otherwise the claims.
   */
  function GetAuthPayload(keys: map<string, CtxValue>): (r: Result<Payload, string>)
    ensures AuthorizationPayloadKey !in keys ==> r == Err(ErrPayloadNotFound)
    ensures AuthorizationPayloadKey in keys && !keys[AuthorizationPayloadKey].PayloadValue? ==> r == Err(ErrUnknownUser)
    ensures r.Ok? ==> AuthorizationPayloadKey in keys && keys[AuthorizationPayloadKey].PayloadValue?
    ensures r.Ok? ==> var a := keys[AuthorizationPayloadKey].payload;
      r.value.id == a.id && r.value.userId == a.userId && r.value.email == a.email && r.value.userType == ""
  {
    if AuthorizationPayloadKey !in keys then Err(ErrPayloadNotFound)
    else
      match keys[AuthorizationPayloadKey]
      case OtherValue(_) => Err(ErrUnknownUser)
      case PayloadValue(a) => Ok(Payload(a.id, a.userId, a.email, "", a.issuedAt, a.expiredAt))
  }

  /**
   * After the middleware let a request through, the handler reads back the
   * verified token's id, user id and email.
   */
  lemma {:induction false} PassedGateHasPayload(header: string, verify: Verifier, keys: map<string, CtxValue>)
    requires Authorize(header, verify).payload.Some?
    ensures var p := verify(Fields(header)[1]).value;
      var r := GetAuthPayload(keys[AuthorizationPayloadKey := PayloadValue(Authorize(header, verify).payload.value)]);
      r.Ok? && r.value.id == p.id && r.value.userId == p.userId && r.value.email == p.email
  {
  }
}
