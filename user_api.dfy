/**
 * api/v1/user.go: the user endpoints and the mapping of stored users to
 * response bodies. Path parameters are parsed with `strconv.Atoi`, a
 * parameter of the model.
 */
module UserApi {
  import opened Wrappers
  import opened Repo
  import opened Http
  import opened Handler
  import opened UserStore

  /** `parseUserModel`: the public profile; the password hash is not carried over. */
  function ParseUserModel(user: User): (m: ApiUser)
    ensures m.id == user.id && m.firstName == user.firstName && m.lastName == user.lastName
    ensures m.email == user.email && m.createdAt == user.createdAt
  {
    ApiUser(user.id, user.firstName, user.lastName, user.email, user.createdAt)
  }

  /** The response does not depend on the password hash at all. */
  lemma {:induction false} ResponseHidesPassword(user: User, hash: string)
    ensures ParseUserModel(user.(password := hash)) == ParseUserModel(user)
    ensures ParseUserModel(user) == ParseUserModel(ReadProfile(InsertedRow(user, user.id, user.createdAt)))
  {
    StoreThenReadProfile(user, user.id, user.createdAt);
  }

  /** `models.GetAllUsersResponse` */
  datatype UsersResponse = UsersResponse(users: seq<ApiUser>, count: int)

  /**
   * `getUsersResponse`: starts from an empty list and appends the profile of
   * each stored user in turn; the count is passed through.
   */
  method GetUsersResponse(data: GetAllUsersResult) returns (response: UsersResponse)
    ensures response.count == data.count
    ensures |response.users| == |data.users|
    ensures forall i :: 0 <= i < |data.users| ==> response.users[i] == ParseUserModel(data.users[i])
  {
    response := UsersResponse([], data.count);
    for i := 0 to |data.users|
      invariant response.count == data.count
      invariant |response.users| == i
      invariant forall j :: 0 <= j < i ==> response.users[j] == ParseUserModel(data.users[j])
    {
      var u := ParseUserModel(data.users[i]);
      response := response.(users := response.users + [u]);
    }
  }

  /**
   * Every listed user in a response comes from a stored row matching the
   * search, with blank names: the listing's contents survive the mapping.
   */
  lemma {:induction false} ListedResponse(rows: seq<UserRow>, p: GetAllUsersParams, response: UsersResponse)
    requires Offset(p.page, p.limit) >= 0 && p.limit >= 0
    requires ListUsers(rows, p).Ok?
    requires var data := ListUsers(rows, p).value;
      |response.users| == |data.users| && forall i :: 0 <= i < |data.users| ==> response.users[i] == ParseUserModel(data.users[i])
    ensures forall i :: 0 <= i < |response.users| ==>
      response.users[i].firstName == "" && response.users[i].lastName == ""
      && exists r :: r in rows && UserMatches(r, p.search) && response.users[i].id == r.id && response.users[i].email == r.email
  {
    ListingContents(rows, p);
    var data := ListUsers(rows, p).value;
    forall i | 0 <= i < |response.users|
      ensures response.users[i].firstName == "" && response.users[i].lastName == ""
      ensures exists r :: r in rows && UserMatches(r, p.search) && response.users[i].id == r.id && response.users[i].email == r.email
    {
      assert data.users[i] in data.users;
      var r :| r in rows && UserMatches(r, p.search) && data.users[i] == Listing(r);
    }
  }

  /** `GetUser`: a path id that is not an integer is a 400 before storage is touched. */
  method GetUser(ctx: Context, store: UserTable, atoi: Atoi)
    modifies ctx
    ensures ctx.keys == old(ctx.keys) && ctx.aborted == old(ctx.aborted) && ctx.continued == old(ctx.continued)
    ensures var id := atoi(Lookup(ctx.params, "id"));
      && (id.Err? ==> ctx.replies == old(ctx.replies) + [Reply(StatusBadRequest, ErrorBody(id.error))])
      && (id.Ok? && FindId(store.rows, id.value) < 0 ==>
            ctx.replies == old(ctx.replies) + [Reply(StatusInternalServerError, ErrorBody(DbErrorText(ErrNoRows)))])
      && (id.Ok? && FindId(store.rows, id.value) >= 0 ==>
            ctx.replies == old(ctx.replies) + [Reply(StatusOK, UserBody(ParseUserModel(ReadProfile(store.rows[FindId(store.rows, id.value)]))))])
  {
    var id := atoi(Lookup(ctx.params, "id"));
    if id.Err? {
      ctx.Json(StatusBadRequest, ErrorBody(id.error));
      return;
    }
    var resp := store.Get(id.value);
    if resp.Err? {
      ctx.Json(StatusInternalServerError, ErrorBody(DbErrorText(resp.error)));
      return;
    }
    ctx.Json(StatusOK, UserBody(ParseUserModel(resp.value)));
  }

  const MsgSuccess: string := "success"

  /** `DeleteUser`: a path id that is not an integer is a 400 and nothing is deleted. */
  method DeleteUser(ctx: Context, store: UserTable, atoi: Atoi)
    requires store.Valid()
    modifies ctx, store
    ensures store.Valid() && store.nextId == old(store.nextId) && store.clock == old(store.clock)
    ensures ctx.keys == old(ctx.keys) && ctx.aborted == old(ctx.aborted) && ctx.continued == old(ctx.continued)
    ensures var id := atoi(Lookup(ctx.params, "id"));
      && (id.Err? ==> store.rows == old(store.rows) && ctx.replies == old(ctx.replies) + [Reply(StatusBadRequest, ErrorBody(id.error))])
      && (id.Ok? ==> store.rows == WithoutId(old(store.rows), id.value))
      && (id.Ok? && FindId(old(store.rows), id.value) < 0 ==>
            ctx.replies == old(ctx.replies) + [Reply(StatusInternalServerError, ErrorBody(DbErrorText(ErrNoRows)))])
      && (id.Ok? && FindId(old(store.rows), id.value) >= 0 ==>
            ctx.replies == old(ctx.replies) + [Reply(StatusOK, MessageBody(MsgSuccess))])
  {
    var id := atoi(Lookup(ctx.params, "id"));
    if id.Err? {
      ctx.Json(StatusBadRequest, ErrorBody(id.error));
      return;
    }
    var err := store.DeleteUser(id.value);
    if err.Some? {
      ctx.Json(StatusInternalServerError, ErrorBody(DbErrorText(err.value)));
      return;
    }
    ctx.Json(StatusOK, MessageBody(MsgSuccess));
  }

  /**
   * `GetAllUsers`: bad `limit`/`page` values are a 400, a failed listing a
   * 500, otherwise the listing mapped by `getUsersResponse`.
   */
  method GetAllUsers(ctx: Context, store: UserTable, atoi: Atoi)
    modifies ctx
    ensures ctx.keys == old(ctx.keys) && ctx.aborted == old(ctx.aborted) && ctx.continued == old(ctx.continued)
    ensures |ctx.replies| == |old(ctx.replies)| + 1 && ctx.replies[..|old(ctx.replies)|] == old(ctx.replies)
    ensures var req := ValidateGetAllParams(ctx.query, atoi);
      var reply := ctx.replies[|old(ctx.replies)|];
      && (req.Err? ==> reply == Reply(StatusBadRequest, ErrorBody(req.error)))
      && (req.Ok? ==>
            var res := ListUsers(store.rows, GetAllUsersParams(req.value.limit, req.value.page, req.value.search));
            && (res.Err? ==> reply == Reply(StatusInternalServerError, ErrorBody(DbErrorText(res.error))))
            && (res.Ok? ==> reply.status == StatusOK && reply.body.UsersBody? && reply.body.count == res.value.count
                            && |reply.body.users| == |res.value.users|
                            && forall i :: 0 <= i < |res.value.users| ==> reply.body.users[i] == ParseUserModel(res.value.users[i])))
  {
    var req := ValidateGetAllParams(ctx.query, atoi);
    if req.Err? {
      ctx.Json(StatusBadRequest, ErrorBody(req.error));
      return;
    }
    var result := store.GetAll(GetAllUsersParams(req.value.limit, req.value.page, req.value.search));
    if result.Err? {
      ctx.Json(StatusInternalServerError, ErrorBody(DbErrorText(result.error)));
      return;
    }
    var response := GetUsersResponse(result.value);
    ctx.Json(StatusOK, UsersBody(response.users, response.count));
  }
}
