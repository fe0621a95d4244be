/**
 * api/v1/auth.go: sign-up in two steps (the pending user and a code go to
 * the in-memory store, then the code is checked and the user created) and
 * sign-in. Request binding, bcrypt, the code generator, e-mail delivery
 * and token creation are inputs.
 */
module AuthApi {
  import opened Wrappers
  import opened Repo
  import opened Http
  import opened Handler
  import opened UserStore

  /** One byte of a Go string. */
  type Byte = b: int | 0 <= b < 256

  const RegisterCodeKey: string := "register_code_"
  const PendingUserKey: string := "user_"
  const PendingUserTtl: int := 10 * Minute
  const CodeTtl: int := 2 * Minute
  const MsgCodeSent: string := "Verification code has been sent!"
  /** The error a missing key gives. */
  const ErrCacheMiss: string := "redis: nil"
  /** Stands in for the error `json.Unmarshal` gives for a value that is not a user record. */
  const ErrNotUserJson: string := "json: cannot unmarshal string into Go value of type repo.User"
  /** Calling `Error()` on the nil error. */
  const ErrNilError: string := "runtime error: invalid memory address or nil pointer dereference"

  predicate IsSmallLetter(b: Byte) { 97 <= b <= 122 }

  predicate IsDigit(b: Byte) { 48 <= b <= 57 }

  predicate HasSmallLetter(p: seq<Byte>) { exists i :: 0 <= i < |p| && IsSmallLetter(p[i]) }

  predicate HasDigit(p: seq<Byte>) { exists i :: 0 <= i < |p| && IsDigit(p[i]) }

  /** The password rule: at least 6 bytes, a small ASCII letter and an ASCII digit. */
  predicate Strong(p: seq<Byte>)
  {
    |p| >= 6 && HasSmallLetter(p) && HasDigit(p)
  }

  /** `validatePassword`: one pass over the bytes setting the two flags. */
  method ValidatePassword(password: seq<Byte>) returns (ok: bool)
    ensures ok == Strong(password)
  {
    var smallLetter, number := false, false;
    if |password| < 6 {
      return false;
    }
    for i := 0 to |password|
      invariant smallLetter == exists j :: 0 <= j < i && IsSmallLetter(password[j])
      invariant number == exists j :: 0 <= j < i && IsDigit(password[j])
    {
      if 97 <= password[i] <= 122 {
        smallLetter := true;
      } else if 48 <= password[i] <= 57 {
        number := true;
      }
    }
    return smallLetter && number;
  }

  /** Reordering the bytes never changes the verdict. */
  lemma {:induction false} StrongIsOrderFree(p: seq<Byte>, q: seq<Byte>)
    requires multiset(p) == multiset(q)
    ensures Strong(p) == Strong(q)
  {
    assert |p| == |multiset(p)| == |multiset(q)| == |q|;
    forall p1: seq<Byte>, q1: seq<Byte> | multiset(p1) == multiset(q1)
      ensures (HasSmallLetter(p1) ==> HasSmallLetter(q1)) && (HasDigit(p1) ==> HasDigit(q1))
    {
      if HasSmallLetter(p1) {
        var i :| 0 <= i < |p1| && IsSmallLetter(p1[i]);
        assert p1[i] in multiset(q1);
        var j :| 0 <= j < |q1| && q1[j] == p1[i];
      }
      if HasDigit(p1) {
        var i :| 0 <= i < |p1| && IsDigit(p1[i]);
        assert p1[i] in multiset(q1);
        var j :| 0 <= j < |q1| && q1[j] == p1[i];
      }
    }
  }

  /** A byte that is neither a small letter nor a digit. */
  predicate Neutral(b: Byte) { !IsSmallLetter(b) && !IsDigit(b) }

  /**
   * Upper-case letters, symbols and non-ASCII bytes do not count: two
   * passwords of one length that differ only in such bytes get the same verdict.
   */
  lemma {:induction false} NeutralBytesIgnored(p: seq<Byte>, q: seq<Byte>)
    requires |p| == |q|
    requires forall i :: 0 <= i < |p| && p[i] != q[i] ==> Neutral(p[i]) && Neutral(q[i])
    ensures Strong(p) == Strong(q)
  {
    if HasSmallLetter(p) {
      var i :| 0 <= i < |p| && IsSmallLetter(p[i]);
      assert q[i] == p[i];
    }
    if HasSmallLetter(q) {
      var i :| 0 <= i < |q| && IsSmallLetter(q[i]);
      assert p[i] == q[i];
    }
    if HasDigit(p) {
      var i :| 0 <= i < |p| && IsDigit(p[i]);
      assert q[i] == p[i];
    }
    if HasDigit(q) {
      var i :| 0 <= i < |q| && IsDigit(q[i]);
      assert p[i] == q[i];
    }
  }

  /** `models.RegisterRequest` after binding; the password is its bytes. */
  datatype RegisterRequest = RegisterRequest(firstName: string, lastName: string, email: string, password: seq<Byte>)

  /** What `Register` answers and what it puts in the in-memory store. */
  datatype Registration = Registration(reply: Reply, pending: Option<(string, Entry)>)

  /** Whether a user with exactly this email is stored. */
  predicate EmailTaken(rows: seq<UserRow>, email: string)
  {
    exists k :: 0 <= k < |rows| && rows[k].email == email
  }

  /**
   * The decision of `Register`: the binding error, a weak password, a taken
   * email, a hashing error and an unreachable store are each answered in
   * that order; otherwise the pending user is stored for ten minutes.
   */
  function Register(rows: seq<UserRow>, bound: Result<RegisterRequest, string>, hashed: Result<string, string>,
                    fault: Option<string>): (r: Registration)
    ensures bound.Err? ==> r == Registration(Reply(StatusBadRequest, ErrorBody(bound.error)), None)
    ensures bound.Ok? && !Strong(bound.value.password) ==>
      r == Registration(Reply(StatusBadRequest, ErrorBody(ErrWeakPassword)), None)
    ensures bound.Ok? && Strong(bound.value.password) && EmailTaken(rows, bound.value.email) ==>
      r == Registration(Reply(StatusBadRequest, ErrorBody(ErrEmailExists)), None)
    ensures r.pending.Some? <==> bound.Ok? && Strong(bound.value.password) && !EmailTaken(rows, bound.value.email)
                                 && hashed.Ok? && fault.None?
    ensures r.pending.Some? ==> var req := bound.value;
      && r.pending.value == (PendingUserKey + req.email,
                             Entry(UserJson(User(0, req.firstName, req.lastName, req.email, hashed.value, 0)), PendingUserTtl))
      && r.reply == Reply(StatusCreated, MessageBody(MsgCodeSent))
  {
    match bound
    case Err(e) => Registration(Reply(StatusBadRequest, ErrorBody(e)), None)
    case Ok(req) =>
      if !Strong(req.password) then Registration(Reply(StatusBadRequest, ErrorBody(ErrWeakPassword)), None)
      else if FindEmail(rows, req.email) >= 0 then Registration(Reply(StatusBadRequest, ErrorBody(ErrEmailExists)), None)
      else
        match hashed
        case Err(e) => Registration(Reply(StatusInternalServerError, ErrorBody(e)), None)
        case Ok(hash) =>
          var user := User(0, req.firstName, req.lastName, req.email, hash, 0);
          match fault
          case Some(e) => Registration(Reply(StatusInternalServerError, ErrorBody(e)), None)
          case None => Registration(Reply(StatusCreated, MessageBody(MsgCodeSent)), Some((PendingUserKey + user.email, Entry(UserJson(user), PendingUserTtl))))
  }

  /**
   * `sendVerificationCode`: stores the generated code under `key + email`
   * for two minutes, then mails it. `code` is what the generator gave,
   * `fault` the store's error and `sendError` the mailer's.
   */
  method SendVerificationCode(cache: Cache, key: string, email: string, code: Result<string, string>,
                              fault: Option<string>, sendError: Option<string>) returns (err: Option<string>)
    modifies cache
    ensures code.Ok? && fault.None? ==> cache.entries == old(cache.entries)[key + email := Entry(Text(code.value), CodeTtl)]
    ensures code.Err? || fault.Some? ==> cache.entries == old(cache.entries)
    ensures err.None? <==> code.Ok? && fault.None? && sendError.None?
  {
    if code.Err? {
      return Some(code.error);
    }
    err := cache.Set(key + email, Text(code.value), CodeTtl, fault);
    if err.Some? {
      return;
    }
    err := sendError;
  }

  /**
   * `Register`. The goroutine that sends the code is run to completion
   * after the reply is written; its error is only logged, so it is returned.
   */
  method RegisterUser(ctx: Context, cache: Cache, store: UserTable, bound: Result<RegisterRequest, string>,
                      hashed: Result<string, string>, fault: Option<string>,
                      code: Result<string, string>, codeFault: Option<string>, sendError: Option<string>)
    returns (sendResult: Option<string>)
    modifies ctx, cache
    ensures var r := Register(store.rows, bound, hashed, fault);
      && ctx.replies == old(ctx.replies) + [r.reply]
      && ctx.keys == old(ctx.keys) && ctx.aborted == old(ctx.aborted) && ctx.continued == old(ctx.continued)
      && (r.pending.None? ==> cache.entries == old(cache.entries))
      && (r.pending.Some? && (code.Err? || codeFault.Some?) ==>
            cache.entries == old(cache.entries)[r.pending.value.0 := r.pending.value.1])
      && (r.pending.Some? && code.Ok? && codeFault.None? ==>
            cache.entries == old(cache.entries)[r.pending.value.0 := r.pending.value.1]
                                               [RegisterCodeKey + bound.value.email := Entry(Text(code.value), CodeTtl)])
  {
    sendResult := None;
    if bound.Err? {
      ctx.Json(StatusBadRequest, ErrorBody(bound.error));
      return;
    }
    var req := bound.value;
    var strong := ValidatePassword(req.password);
    if !strong {
      ctx.Json(StatusBadRequest, ErrorBody(ErrWeakPassword));
      return;
    }
    var res := store.GetByEmail(req.email);
    if res.Ok? {
      ctx.Json(StatusBadRequest, ErrorBody(ErrEmailExists));
      return;
    }
    if hashed.Err? {
      ctx.Json(StatusInternalServerError, ErrorBody(hashed.error));
      return;
    }
    var user := User(0, req.firstName, req.lastName, req.email, hashed.value, 0);
    var err := cache.Set(PendingUserKey + user.email, UserJson(user), PendingUserTtl, fault);
    if err.Some? {
      ctx.Json(StatusInternalServerError, ErrorBody(err.value));
      return;
    }
    ctx.Json(StatusCreated, MessageBody(MsgCodeSent));
    sendResult := SendVerificationCode(cache, RegisterCodeKey, req.email, code, codeFault, sendError);
  }

  /** A weak password is refused before the email is looked at: the table does not matter. */
  lemma {:induction false} WeakPasswordFirst(rows1: seq<UserRow>, rows2: seq<UserRow>, req: RegisterRequest,
                                             hashed: Result<string, string>, fault: Option<string>)
    requires !Strong(req.password)
    ensures Register(rows1, Ok(req), hashed, fault) == Register(rows2, Ok(req), hashed, fault)
    ensures Register(rows1, Ok(req), hashed, fault).pending.None?
  {
  }

  /** `models.VerifyRequest` after binding. */
  datatype VerifyRequest = VerifyRequest(email: string, code: string)

  /**
   * What `Verify` does: the replies written, the user handed to `Create`
   * (its hash and names as registered), and whether it panicked.
   */
  datatype Verification = Verification(replies: seq<Reply>, created: Option<User>, outcome: Outcome)

  /** `json.Unmarshal` of a stored value into `repo.User`. */
  function Unmarshal(v: Cached): (r: Result<User, string>)
    ensures v.UserJson? ==> r == Ok(v.user)
    ensures v.Text? ==> r == Err(ErrNotUserJson)
  {
    match v
    case UserJson(u) => Ok(u)
    case Text(_) => Err(ErrNotUserJson)
  }

  /**
   * The decision of `Verify` over the store contents `entries`. A value that
   * does not decode is answered with 403 but the handler goes on with the
   * zero user; a wrong code reaches `errorResponse(nil)` and panics.
   * `token` is what `CreateToken` gave; `createFault` an insert error.
   */
  function Verify(entries: map<string, Entry>, bound: Result<VerifyRequest, string>, createFault: Option<string>,
                  token: Result<string, string>, id: int, dbNow: int): (v: Verification)
    ensures v.created.Some? ==>
      && bound.Ok? && PendingUserKey + bound.value.email in entries
      && var u := Unmarshal(entries[PendingUserKey + bound.value.email].value);
      && v.created.value == (if u.Ok? then u.value else EmptyUser)
      && RegisterCodeKey + v.created.value.email in entries
      && entries[RegisterCodeKey + v.created.value.email].value == Text(bound.value.code)
    ensures v.outcome.Panicked? ==> v.created.None?
    ensures bound.Err? ==> v == Verification([Reply(StatusBadRequest, ErrorBody(bound.error))], None, Done)
    ensures bound.Ok? && PendingUserKey + bound.value.email !in entries ==>
      v == Verification([Reply(StatusBadRequest, ErrorBody(ErrCacheMiss))], None, Done)
  {
    match bound
    case Err(e) => Verification([Reply(StatusBadRequest, ErrorBody(e))], None, Done)
    case Ok(req) =>
      if PendingUserKey + req.email !in entries then
        Verification([Reply(StatusBadRequest, ErrorBody(ErrCacheMiss))], None, Done)
      else
        var decoded := Unmarshal(entries[PendingUserKey + req.email].value);
        var first := if decoded.Err? then [Reply(StatusForbidden, ErrorBody(decoded.error))] else [];
        var user := if decoded.Ok? then decoded.value else EmptyUser;
        if RegisterCodeKey + user.email !in entries then
          Verification(first + [Reply(StatusForbidden, ErrorBody(ErrCodeExpired))], None, Done)
        else if entries[RegisterCodeKey + user.email].value != Text(req.code) then
          Verification(first, None, Panicked(ErrNilError))
        else
          Verification(first + [Created(user, createFault, token, id, dbNow)],
                       if createFault.None? then Some(user) else None, Done)
  }

  /**
   * The reply once the code matched: 500 when the insert or the token fails,
   * otherwise 201 with the stored user's id, profile and `created_at`.
   */
  function Created(user: User, createFault: Option<string>, token: Result<string, string>, id: int, dbNow: int): (r: Reply)
    ensures r.status == StatusCreated <==> createFault.None? && token.Ok?
    ensures r.status == StatusCreated ==>
      r.body == AuthBody(id, user.firstName, user.lastName, user.email, dbNow, token.value)
  {
    if createFault.Some? then Reply(StatusInternalServerError, ErrorBody(createFault.value))
    else match token
      case Err(e) => Reply(StatusInternalServerError, ErrorBody(e))
      case Ok(t) => Reply(StatusCreated, AuthBody(id, user.firstName, user.lastName, user.email, dbNow, t))
  }

  /** The end of `Verify`: inserts the user and answers as `Created` says. */
  method CreateVerified(ctx: Context, store: UserTable, user: User, createFault: Option<string>,
                        token: Result<string, string>, dbNow: int)
    requires store.Valid() && store.clock <= dbNow
    modifies ctx, store
    ensures store.Valid()
    ensures ctx.replies == old(ctx.replies) + [Created(user, createFault, token, old(store.nextId), dbNow)]
    ensures ctx.keys == old(ctx.keys) && ctx.aborted == old(ctx.aborted) && ctx.continued == old(ctx.continued)
    ensures store.rows == (if createFault.None? then old(store.rows) + [InsertedRow(user, old(store.nextId), dbNow)]
                           else old(store.rows))
  {
    if createFault.Some? {
      ctx.Json(StatusInternalServerError, ErrorBody(createFault.value));
      return;
    }
    var result := store.Create(user, dbNow);
    if token.Err? {
      ctx.Json(StatusInternalServerError, ErrorBody(token.error));
      return;
    }
    ctx.Json(StatusCreated, AuthBody(result.id, result.firstName, result.lastName, result.email, result.createdAt, token.value));
  }

  /**
   * A pending value that does not decode is answered 403, and the handler
   * carries on with the zero user: its code is looked up under the bare
   * `register_code_` key, and a match there creates the empty user.
   */
  lemma {:induction false} UndecodableGoesOn(entries: map<string, Entry>, req: VerifyRequest,
                                             createFault: Option<string>, token: Result<string, string>, id: int, dbNow: int)
    requires PendingUserKey + req.email in entries && entries[PendingUserKey + req.email].value.Text?
    ensures var v := Verify(entries, Ok(req), createFault, token, id, dbNow);
      && |v.replies| >= 1 && v.replies[0] == Reply(StatusForbidden, ErrorBody(ErrNotUserJson))
      && (RegisterCodeKey !in entries ==>
            v.replies == [v.replies[0], Reply(StatusForbidden, ErrorBody(ErrCodeExpired))] && v.created.None?)
      && (RegisterCodeKey in entries && entries[RegisterCodeKey].value != Text(req.code) ==>
            v == Verification([v.replies[0]], None, Panicked(ErrNilError)))
      && (RegisterCodeKey in entries && entries[RegisterCodeKey].value == Text(req.code) ==>
            && v.replies == [v.replies[0], Created(EmptyUser, createFault, token, id, dbNow)]
            && v.created == (if createFault.None? then Some(EmptyUser) else None))
  {
    assert RegisterCodeKey + EmptyUser.email == RegisterCodeKey;
  }

  /** A missing code is answered 403 `VERIFICATION_CODE_IS_EXPIRED` and nobody is created. */
  lemma {:induction false} ExpiredCodeRefused(entries: map<string, Entry>, req: VerifyRequest, user: User,
                                              createFault: Option<string>, token: Result<string, string>, id: int, dbNow: int)
    requires PendingUserKey + req.email in entries && entries[PendingUserKey + req.email].value == UserJson(user)
    requires RegisterCodeKey + user.email !in entries
    ensures Verify(entries, Ok(req), createFault, token, id, dbNow) ==
      Verification([Reply(StatusForbidden, ErrorBody(ErrCodeExpired))], None, Done)
  {
  }

  /** A wrong code writes nothing and creates nobody: the handler panics. */
  lemma {:induction false} WrongCodePanics(entries: map<string, Entry>, req: VerifyRequest, user: User, code: string,
                                           createFault: Option<string>, token: Result<string, string>, id: int, dbNow: int)
    requires PendingUserKey + req.email in entries && entries[PendingUserKey + req.email].value == UserJson(user)
    requires RegisterCodeKey + user.email in entries && entries[RegisterCodeKey + user.email].value == Text(code)
    requires code != req.code
    ensures Verify(entries, Ok(req), createFault, token, id, dbNow) == Verification([], None, Panicked(ErrNilError))
  {
  }

  /**
   * Registering then verifying with the code that was stored creates the
   * registered user and answers 201 with its new id and the token.
   */
  lemma {:induction false} RegisterThenVerify(rows: seq<UserRow>, req: RegisterRequest, hash: string, code: string,
                                              entries: map<string, Entry>, token: string, id: int, dbNow: int)
    requires Register(rows, Ok(req), Ok(hash), None).pending.Some?
    requires var p := Register(rows, Ok(req), Ok(hash), None).pending.value;
      entries == map[p.0 := p.1][RegisterCodeKey + req.email := Entry(Text(code), CodeTtl)]
    ensures var v := Verify(entries, Ok(VerifyRequest(req.email, code)), None, Ok(token), id, dbNow);
      && v.created == Some(User(0, req.firstName, req.lastName, req.email, hash, 0))
      && v.replies == [Reply(StatusCreated, AuthBody(id, req.firstName, req.lastName, req.email, dbNow, token))]
      && v.outcome == Done
  {
    assert PendingUserKey + req.email != RegisterCodeKey + req.email by {
      assert (PendingUserKey + req.email)[1] == 's' != (RegisterCodeKey + req.email)[1];
    }
  }

  /** `Verify`: the replies, the created user and the outcome are those of `Verify` above. */
  method VerifyEmail(ctx: Context, cache: Cache, store: UserTable, bound: Result<VerifyRequest, string>,
                     createFault: Option<string>, token: Result<string, string>, dbNow: int)
    returns (outcome: Outcome)
    requires store.Valid() && store.clock <= dbNow
    modifies ctx, store
    ensures store.Valid()
    ensures var v := Verify(cache.entries, bound, createFault, token, old(store.nextId), dbNow);
      && outcome == v.outcome
      && ctx.replies == old(ctx.replies) + v.replies
      && ctx.keys == old(ctx.keys) && ctx.aborted == old(ctx.aborted) && ctx.continued == old(ctx.continued)
      && store.rows == (if v.created.Some? then old(store.rows) + [InsertedRow(v.created.value, old(store.nextId), dbNow)]
                        else old(store.rows))
  {
    ghost var v := Verify(cache.entries, bound, createFault, token, store.nextId, dbNow);
    if bound.Err? {
      ctx.Json(StatusBadRequest, ErrorBody(bound.error));
      return Done;
    }
    var req := bound.value;
    var userData := cache.Get(PendingUserKey + req.email);
    if userData.None? {
      ctx.Json(StatusBadRequest, ErrorBody(ErrCacheMiss));
      return Done;
    }
    var user := EmptyUser;
    var decoded := Unmarshal(userData.value);
    ghost var first: seq<Reply> := [];
    if decoded.Err? {
      ctx.Json(StatusForbidden, ErrorBody(decoded.error));
      first := [Reply(StatusForbidden, ErrorBody(decoded.error))];
    } else {
      user := decoded.value;
    }
    assert ctx.replies == old(ctx.replies) + first;
    var code := cache.Get(RegisterCodeKey + user.email);
    if code.None? {
      ctx.Json(StatusForbidden, ErrorBody(ErrCodeExpired));
      assert v == Verification(first + [Reply(StatusForbidden, ErrorBody(ErrCodeExpired))], None, Done);
      return Done;
    }
    if Text(req.code) != code.value {
      // `errorResponse(err)` with the nil `err` of the successful lookup.
      assert v == Verification(first, None, Panicked(ErrNilError));
      return Panicked(ErrNilError);
    }
    CreateVerified(ctx, store, user, createFault, token, dbNow);
    return Done;
  }

  /** `models.LoginRequest` after binding. */
  datatype LoginRequest = LoginRequest(email: string, password: string)

  /** `utils.CheckPassword(password, hash)`: whether bcrypt accepts the password. */
  type PasswordCheck = (string, string) -> bool

  /**
   * The reply of `Login`: 403 with the same error for an unknown email and
   * for a wrong password; otherwise the profile and a token.
   */
  function Login(rows: seq<UserRow>, bound: Result<LoginRequest, string>, check: PasswordCheck,
                 token: Result<string, string>): (r: Reply)
    ensures bound.Ok? && !EmailTaken(rows, bound.value.email) ==> r == Reply(StatusForbidden, ErrorBody(ErrWrongEmailOrPass))
    ensures r.status == StatusCreated ==> bound.Ok? && EmailTaken(rows, bound.value.email) && token.Ok?
    ensures r.status == StatusCreated ==> var k := FindEmail(rows, bound.value.email);
      check(bound.value.password, rows[k].password)
  {
    match bound
    case Err(e) => Reply(StatusBadRequest, ErrorBody(e))
    case Ok(req) =>
      var k := FindEmail(rows, req.email);
      if k < 0 then Reply(StatusForbidden, ErrorBody(ErrWrongEmailOrPass))
      else
        var user := ReadWithPassword(rows[k]);
        if !check(req.password, user.password) then Reply(StatusForbidden, ErrorBody(ErrWrongEmailOrPass))
        else
          match token
          case Err(e) => Reply(StatusInternalServerError, ErrorBody(e))
          case Ok(t) => Reply(StatusCreated, LoginBody(ApiUser(user.id, user.firstName, user.lastName, user.email, user.createdAt), t))
  }

  /** An unknown email and a wrong password for a known one get identical answers. */
  lemma {:induction false} LoginDoesNotRevealEmails(rows: seq<UserRow>, unknown: LoginRequest, known: LoginRequest,
                                                    check: PasswordCheck, token: Result<string, string>)
    requires !EmailTaken(rows, unknown.email)
    requires EmailTaken(rows, known.email)
    requires !check(known.password, rows[FindEmail(rows, known.email)].password)
    ensures Login(rows, Ok(unknown), check, token) == Login(rows, Ok(known), check, token)
  {
  }

  /** `Login`: answers with `Login` above and changes nothing else. */
  method LoginUser(ctx: Context, store: UserTable, bound: Result<LoginRequest, string>, check: PasswordCheck,
                   token: Result<string, string>)
    modifies ctx
    ensures ctx.replies == old(ctx.replies) + [Login(store.rows, bound, check, token)]
    ensures ctx.keys == old(ctx.keys) && ctx.aborted == old(ctx.aborted) && ctx.continued == old(ctx.continued)
  {
    if bound.Err? {
      ctx.Json(StatusBadRequest, ErrorBody(bound.error));
      return;
    }
    var req := bound.value;
    var res := store.GetByEmail(req.email);
    if res.Err? {
      // `GetByEmail` fails only with `ErrNoRows`.
      ctx.Json(StatusForbidden, ErrorBody(ErrWrongEmailOrPass));
      return;
    }
    var user := res.value;
    if !check(req.password, user.password) {
      ctx.Json(StatusForbidden, ErrorBody(ErrWrongEmailOrPass));
      return;
    }
    if token.Err? {
      ctx.Json(StatusInternalServerError, ErrorBody(token.error));
      return;
    }
    ctx.Json(StatusCreated, LoginBody(ApiUser(user.id, user.firstName, user.lastName, user.email, user.createdAt), token.value));
  }
}
