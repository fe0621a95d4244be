/**
 * The pieces of the web stack the handlers touch: the JSON bodies of
 * api/models, the gin request context (query, path parameters, headers,
 * per-request keys, the replies written and whether the chain was aborted
 * or continued) and the in-memory key/value store with expiry times.
 * Times and durations are integers in Go's unit, the nanosecond.
 */
module Http {
  import opened Wrappers
  import opened Repo

  const Second: int := 1_000_000_000
  const Minute: int := 60 * Second

  const StatusOK: int := 200
  const StatusCreated: int := 201
  const StatusBadRequest: int := 400
  const StatusUnauthorized: int := 401
  const StatusForbidden: int := 403
  const StatusInternalServerError: int := 500

  /** `models.Url`: `maxClicks` is the nullable `*int64` of the response. */
  datatype ApiUrl = ApiUrl(
    id: int, userId: int, originalUrl: string, hashedUrl: string,
    maxClicks: Option<int>, expiresAt: Option<int>, createdAt: int)

  /** `models.User`: the public profile, which has no password field. */
  datatype ApiUser = ApiUser(id: int, firstName: string, lastName: string, email: string, createdAt: int)

  /** `models.AuthPayload`, what the middleware stores in the context. */
  datatype AuthPayload = AuthPayload(id: string, userId: int, email: string, issuedAt: int, expiredAt: int)

  /** The JSON bodies the handlers answer with. */
  datatype Body =
    | ErrorBody(error: string)
    | MessageBody(message: string)
    | UrlBody(url: ApiUrl)
    | UserBody(user: ApiUser)
    | UsersBody(users: seq<ApiUser>, count: int)
    | AuthBody(id: int, firstName: string, lastName: string, email: string, createdAt: int, accessToken: string)
    | LoginBody(user: ApiUser, accessToken: string)

  datatype Reply = Reply(status: int, body: Body)

  /** A value stored under a context key. */
  datatype CtxValue = PayloadValue(payload: AuthPayload) | OtherValue(text: string)

  /** How a handler run ends: normally, or with a Go runtime panic. */
  datatype Outcome = Done | Panicked(reason: string)

  /** `ctx.Query`, `ctx.Param` and `ctx.GetHeader`: the value under `key`, "" when absent. */
  function Lookup(m: map<string, string>, key: string): (v: string)
    ensures key in m ==> v == m[key]
    ensures key !in m ==> v == ""
  {
    if key in m then m[key] else ""
  }

  /** The gin request context of one request. */
  class Context {
    /** The URL query parameters. */
    const query: map<string, string>
    /** The path parameters (`:id`, `:email`). */
    const params: map<string, string>
    /** The request headers, keyed by lower-case name. */
    const headers: map<string, string>
    /** The per-request keys of `ctx.Set`/`ctx.Get`. */
    var keys: map<string, CtxValue>
    /** Every JSON reply written, in order. */
    var replies: seq<Reply>
    /** Whether `Abort` was called: the remaining handlers will not run. */
    var aborted: bool
    /** Whether `Next` was called: the remaining handlers ran. */
    var continued: bool

    constructor (query: map<string, string>, params: map<string, string>, headers: map<string, string>, keys: map<string, CtxValue>)
      ensures this.query == query && this.params == params && this.headers == headers && this.keys == keys
      ensures replies == [] && !aborted && !continued
    {
      this.query := query;
      this.params := params;
      this.headers := headers;
      this.keys := keys;
      replies := [];
      aborted := false;
      continued := false;
    }

    /** `ctx.JSON(status, body)`: writes one reply. */
    method Json(status: int, body: Body)
      modifies this
      ensures replies == old(replies) + [Reply(status, body)]
      ensures keys == old(keys) && aborted == old(aborted) && continued == old(continued)
    {
      replies := replies + [Reply(status, body)];
    }

    /** `ctx.AbortWithStatusJSON(status, body)`: writes one reply and aborts the chain. */
    method AbortWithStatusJson(status: int, body: Body)
      modifies this
      ensures replies == old(replies) + [Reply(status, body)]
      ensures aborted
      ensures keys == old(keys) && continued == old(continued)
    {
      replies := replies + [Reply(status, body)];
      aborted := true;
    }

    /** `ctx.Set(key, value)` */
    method Set(key: string, value: CtxValue)
      modifies this
      ensures keys == old(keys)[key := value]
      ensures replies == old(replies) && aborted == old(aborted) && continued == old(continued)
    {
      keys := keys[key := value];
    }

    /** `ctx.Next()`: runs the rest of the chain. */
    method Next()
      modifies this
      ensures continued
      ensures keys == old(keys) && replies == old(replies) && aborted == old(aborted)
    {
      continued := true;
    }
  }

  /** What the key/value store holds: plain text, or the JSON of a `repo.User`. */
  datatype Cached = Text(text: string) | UserJson(user: User)

  /** One entry: the value and the expiry duration it was stored with (0: none). */
  datatype Entry = Entry(value: Cached, ttl: int)

  /**
   * The in-memory key/value store behind `storage.InMemoryStorageI`. Expiry
   * in wall-clock time is not modelled: an entry stays until overwritten.
   */
  class Cache {
    var entries: map<string, Entry>

    constructor ()
      ensures entries == map[]
    {
      entries := map[];
    }

    /**
     * `Set(key, value, ttl)`; `fault` is the error of an unreachable store,
     * in which case nothing is written.
     */
    method Set(key: string, value: Cached, ttl: int, fault: Option<string>) returns (err: Option<string>)
      modifies this
      ensures err == fault
      ensures entries == if fault.Some? then old(entries) else old(entries)[key := Entry(value, ttl)]
    {
      err := fault;
      if fault.None? {
        entries := entries[key := Entry(value, ttl)];
      }
    }

    /** `Get(key)`: the value, or None for a missing key. */
    function Get(key: string): (v: Option<Cached>)
      reads this
      ensures v.Some? <==> key in entries
      ensures v.Some? ==> v.value == entries[key].value
    {
      if key in entries then Some(entries[key].value) else None
    }
  }
}
