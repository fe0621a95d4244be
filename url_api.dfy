/**
 * api/v1/url.go: the short-link endpoint. It picks the link's public URL
 * (a random six-letter token, or the caller's custom alias when that is
 * free), caches the target under it, stores the link and answers with the
 * stored record. Time, the duration parser, the random draws and the
 * failures of the cache and the database are inputs.
 */
module UrlApi {
  import opened Wrappers
  import opened Repo
  import opened Http
  import opened Handler
  import opened Middleware
  import opened Random
  import opened LinkStore

  /** `fmt.Sprintf("http://localhost%s/v1/urls/", port)` */
  function Prefix(port: string): string
  {
    "http://localhost" + port + "/v1/urls/"
  }

  /** The public URL of `token`: the prefix followed by the token. */
  function ShortUrl(port: string, token: string): (u: string)
    ensures |u| == |Prefix(port)| + |token|
    ensures u[..|Prefix(port)|] == Prefix(port) && u[|Prefix(port)|..] == token
  {
    Prefix(port) + token
  }

  /** Different tokens give different public URLs. */
  lemma {:induction false} ShortUrlInjective(port: string, t1: string, t2: string)
    requires ShortUrl(port, t1) == ShortUrl(port, t2)
    ensures t1 == t2
  {
    assert t1 == ShortUrl(port, t1)[|Prefix(port)|..];
  }

  /** `parseUrlModel`: the response body; a zero `max_clicks` is reported as null. */
  function ParseUrlModel(data: Url): (m: ApiUrl)
    ensures m.maxClicks.None? <==> data.maxClicks == 0
    ensures m.maxClicks.Some? ==> m.maxClicks.value == data.maxClicks
    ensures m.id == data.id && m.userId == data.userId && m.createdAt == data.createdAt
    ensures m.originalUrl == data.originalUrl && m.hashedUrl == data.hashedUrl && m.expiresAt == data.expiresAt
  {
    ApiUrl(data.id, data.userId, data.originalUrl, data.hashedUrl,
           if data.maxClicks != 0 then Some(data.maxClicks) else None, data.expiresAt, data.createdAt)
  }

  /**
   * What a client reads back from a stored link: the `max_clicks` it asked
   * for, a zero limit as null, whatever went through the nullable column.
   */
  lemma {:induction false} StoredClicksReported(url: Url, id: int, now: int)
    ensures ParseUrlModel(ReadRow(InsertedRow(url, id, now))).maxClicks == ParseUrlModel(url).maxClicks
    ensures ParseUrlModel(ReadRow(InsertedRow(url, id, now))) == ParseUrlModel(url).(id := id, createdAt := now)
  {
    StoreThenRead(url, id, now);
  }

  /** The six-letter token `RandomString(6)` draws. */
  function Token(draws: seq<int>): (t: string)
    requires |draws| >= 6 && DrawsBelow(draws, |Alphabet|)
    ensures |t| == 6 && LowerLetters(t)
  {
    AlphabetIsLowerCase();
    seq(6, i requires 0 <= i < 6 => Alphabet[draws[i]])
  }

  /** What the lookup of the custom URL gave: a row, `ErrNoRows`, or another error. */
  datatype Lookup = Found | NotFound | Failed

  /** The lookup of `url` in the link table; `fails` is a database error. */
  function LookupIn(rows: seq<LinkRow>, url: string, fails: bool): (l: Lookup)
    ensures l == Found <==> !fails && exists k :: 0 <= k < |rows| && rows[k].hashedUrl == url
    ensures l == Failed <==> fails
  {
    if fails then Failed else if FindHash(rows, url) >= 0 then Found else NotFound
  }

  /** The failures of the collaborators during one request. */
  datatype Faults = Faults(cacheFault: Option<string>, lookupFails: bool, createFails: bool)

  /**
   * What one request does: the reply, the cache entry written (key and
   * entry) and the record handed to `Create`, if any; `id` and `dbNow` are
   * what the database fills in.
   */
  datatype Effects = Effects(reply: Reply, cached: Option<(string, Entry)>, record: Option<Url>)

  /** The duration in effect: 0 when none is given, None when it does not parse. */
  function DurationOf(text: string, parseDuration: string -> Option<int>): (d: Option<int>)
    ensures text == "" ==> d == Some(0)
    ensures text != "" ==> d == parseDuration(text)
  {
    if text == "" then Some(0) else parseDuration(text)
  }

  function Fail(status: int, error: string): Effects
  {
    Effects(Reply(status, ErrorBody(error)), None, None)
  }

  /**
   * The short URL picked and the cache key written for it: the random token
   * without an alias; nothing (a refusal) for a taken alias; the alias when
   * the lookup found no row; and an empty URL with no cache write when the
   * lookup failed otherwise.
   */
  function Choice(port: string, custom: string, token: string, lookup: Lookup): (c: Option<(string, Option<string>)>)
    ensures c.None? <==> custom != "" && lookup == Found
    ensures c.Some? && c.value.1.Some? ==> c.value.1.value == c.value.0
  {
    if custom == "" then Some((ShortUrl(port, token), Some(ShortUrl(port, token))))
    else if lookup == Found then None
    else if lookup == NotFound then Some((ShortUrl(port, custom), Some(ShortUrl(port, custom))))
    else Some(("", None))
  }

  /**
   * The choice of URL in `MakeShortUrl`: six random letters without an
   * alias, otherwise the lookup of the alias's full URL.
   */
  method ChooseUrl(store: LinkTable, port: string, customUrl: string, draws: seq<int>, f: Faults)
    returns (c: Option<(string, Option<string>)>)
    requires |draws| >= 6 && DrawsBelow(draws, |Alphabet|)
    ensures c == Choice(port, customUrl, Token(draws), LookupIn(store.rows, ShortUrl(port, customUrl), f.lookupFails))
  {
    if customUrl == "" {
      var str := RandomString(6, draws);
      assert str == Token(draws);
      var shortUrl := ShortUrl(port, str);
      return Some((shortUrl, Some(shortUrl)));
    }
    var custom := ShortUrl(port, customUrl);
    if f.lookupFails {
      return Some(("", None));
    }
    var url := store.Get(custom);
    if url.Err? {
      // `Get` fails only with `ErrNoRows`.
      return Some((custom, Some(custom)));
    }
    // `Get` matches `hashed_url` exactly, so the row found is the alias.
    return None;
  }

  /**
   * What happens once the request is validated, the caller known and the
   * duration `d` parsed: the URL is picked (`token` is the random token,
   * `lookup` what the lookup of the custom URL gave, unused without an
   * alias), cached, and the link stored.
   */
  function Place(req: CreateShortUrlRequest, userId: int, d: int, port: string, custom: string, token: string,
                 lookup: Lookup, now: int, id: int, dbNow: int, f: Faults): (e: Effects)
    ensures e.record.Some? ==>
      && e.record.value.userId == userId
      && e.record.value.originalUrl == req.originalUrl && e.record.value.maxClicks == req.maxClicks
      && e.record.value.expiresAt == Some(now + d)
    ensures e.cached.Some? ==> e.cached.value.1 == Entry(Text(req.originalUrl), d)
    ensures e.record.Some? && !f.createFails ==>
      e.reply == Reply(StatusOK, UrlBody(ParseUrlModel(e.record.value.(id := id, createdAt := dbNow))))
    ensures e.record.None? ==> e.cached.None? && e.reply.status in {StatusBadRequest, StatusInternalServerError}
  {
    var entry := Entry(Text(req.originalUrl), d);
    match Choice(port, custom, token, lookup)
    case None => Fail(StatusBadRequest, ErrUrlUnavailable)
    case Some((shortUrl, key)) =>
      if key.Some? && f.cacheFault.Some? then Fail(StatusInternalServerError, ErrInternalServer)
      else
        var cached := if key.Some? then Some((key.value, entry)) else None;
        var record := Url(0, userId, req.originalUrl, shortUrl, req.maxClicks, Some(now + d), 0);
        if f.createFails then Effects(Reply(StatusInternalServerError, ErrorBody(ErrInternalServer)), cached, Some(record))
        else Effects(Reply(StatusOK, UrlBody(ParseUrlModel(record.(id := id, createdAt := dbNow)))), cached, Some(record))
  }

  /**
   * The decision of `MakeShortUrl`: a bad query is a 400 and a missing
   * caller a 401, both before anything is written; a duration that does not
   * parse is a 500; otherwise `Place`.
   */
  function Shorten(query: map<string, string>, keys: map<string, CtxValue>, atoi: Atoi,
                   parseDuration: string -> Option<int>, port: string, custom: string, token: string,
                   lookup: Lookup, now: int, id: int, dbNow: int, f: Faults): (e: Effects)
    ensures ValidateUrlParams(query, atoi).Err? ==> e == Fail(StatusBadRequest, ErrBadRequest)
    ensures ValidateUrlParams(query, atoi).Ok? && GetAuthPayload(keys).Err? ==> e == Fail(StatusUnauthorized, ErrUnauthorized)
    ensures e.cached.Some? || e.record.Some? ==>
      && ValidateUrlParams(query, atoi).Ok? && GetAuthPayload(keys).Ok?
      && DurationOf(ValidateUrlParams(query, atoi).value.duration, parseDuration).Some?
  {
    match ValidateUrlParams(query, atoi)
    case Err(_) => Fail(StatusBadRequest, ErrBadRequest)
    case Ok(req) =>
      match GetAuthPayload(keys)
      case Err(_) => Fail(StatusUnauthorized, ErrUnauthorized)
      case Ok(payload) =>
        match DurationOf(req.duration, parseDuration)
        case None => Fail(StatusInternalServerError, ErrInternalServer)
        case Some(d) => Place(req, payload.userId, d, port, custom, token, lookup, now, id, dbNow, f)
  }

  /**
   * Without an alias the link lives at the prefix plus the random token; the
   * cache maps it to the target for the request's duration.
   */
  lemma {:induction false} RandomTokenLink(req: CreateShortUrlRequest, userId: int, d: int, port: string, token: string,
                                           lookup: Lookup, now: int, id: int, dbNow: int, f: Faults)
    requires f.cacheFault.None?
    ensures var e := Place(req, userId, d, port, "", token, lookup, now, id, dbNow, f);
      && e.cached == Some((ShortUrl(port, token), Entry(Text(req.originalUrl), d)))
      && e.record.Some? && e.record.value.hashedUrl == ShortUrl(port, token)
  {
  }

  /** A taken alias is refused with 400 before anything is cached or stored. */
  lemma {:induction false} TakenAliasRefused(req: CreateShortUrlRequest, userId: int, d: int, port: string, custom: string,
                                             token: string, now: int, id: int, dbNow: int, f: Faults)
    requires custom != ""
    ensures Place(req, userId, d, port, custom, token, Found, now, id, dbNow, f) == Fail(StatusBadRequest, ErrUrlUnavailable)
  {
  }

  /**
   * A free alias becomes the link behind the same prefix; when the lookup
   * itself fails the link is stored with an empty URL and nothing is cached.
   */
  lemma {:induction false} AliasLink(req: CreateShortUrlRequest, userId: int, d: int, port: string, custom: string,
                                     token: string, now: int, id: int, dbNow: int, f: Faults)
    requires custom != "" && f.cacheFault.None?
    ensures var e := Place(req, userId, d, port, custom, token, NotFound, now, id, dbNow, f);
      e.record.Some? && e.record.value.hashedUrl == ShortUrl(port, custom) && e.cached.Some? && e.cached.value.0 == ShortUrl(port, custom)
    ensures var e := Place(req, userId, d, port, custom, token, Failed, now, id, dbNow, f);
      e.record.Some? && e.record.value.hashedUrl == "" && e.cached.None?
  {
  }

  /** Without a duration the stored link expires at the instant it was made. */
  lemma {:induction false} NoDurationExpiresNow(query: map<string, string>, keys: map<string, CtxValue>, atoi: Atoi,
                                                parseDuration: string -> Option<int>, port: string, custom: string, token: string,
                                                lookup: Lookup, now: int, id: int, dbNow: int, f: Faults)
    requires ValidateUrlParams(query, atoi).Ok? && ValidateUrlParams(query, atoi).value.duration == ""
    requires Shorten(query, keys, atoi, parseDuration, port, custom, token, lookup, now, id, dbNow, f).record.Some?
    ensures Shorten(query, keys, atoi, parseDuration, port, custom, token, lookup, now, id, dbNow, f).record.value.expiresAt == Some(now)
  {
    assert DurationOf("", parseDuration) == Some(0);
  }

  /** The state change an `Effects` value stands for. */
  twostate predicate Applied(e: Effects, ctx: Context, cache: Cache, store: LinkTable, dbNow: int, f: Faults)
    reads ctx, cache, store
  {
    && ctx.replies == old(ctx.replies) + [e.reply]
    && ctx.keys == old(ctx.keys) && ctx.aborted == old(ctx.aborted) && ctx.continued == old(ctx.continued)
    && cache.entries == (if e.cached.Some? then old(cache.entries)[e.cached.value.0 := e.cached.value.1] else old(cache.entries))
    && store.rows == (if e.record.Some? && !f.createFails
                      then old(store.rows) + [InsertedRow(e.record.value, old(store.nextId), dbNow)]
                      else old(store.rows))
  }

  /** The second half of `MakeShortUrl`, from the choice of URL on. */
  method PlaceLink(ctx: Context, cache: Cache, store: LinkTable, req: CreateShortUrlRequest, userId: int,
                   duration: int, port: string, customUrl: string, draws: seq<int>, now: int, dbNow: int, f: Faults)
    requires store.Valid() && store.clock <= dbNow
    requires |draws| >= 6 && DrawsBelow(draws, |Alphabet|)
    modifies ctx, cache, store
    ensures store.Valid()
    ensures Applied(Place(req, userId, duration, port, customUrl, Token(draws),
                          LookupIn(old(store.rows), ShortUrl(port, customUrl), f.lookupFails),
                          now, old(store.nextId), dbNow, f), ctx, cache, store, dbNow, f)
  {
    ghost var e := Place(req, userId, duration, port, customUrl, Token(draws),
                         LookupIn(store.rows, ShortUrl(port, customUrl), f.lookupFails), now, store.nextId, dbNow, f);
    var chosen := ChooseUrl(store, port, customUrl, draws, f);
    if chosen.None? {
      ctx.Json(StatusBadRequest, ErrorBody(ErrUrlUnavailable));
      return;
    }
    var (shortUrl, key) := chosen.value;
    if key.Some? {
      var err := cache.Set(key.value, Text(req.originalUrl), duration, f.cacheFault);
      if err.Some? {
        ctx.Json(StatusInternalServerError, ErrorBody(ErrInternalServer));
        return;
      }
    }
    var expiresAt := now + duration;
    var record := Url(0, userId, req.originalUrl, shortUrl, req.maxClicks, Some(expiresAt), 0);
    assert e.record == Some(record);
    if f.createFails {
      ctx.Json(StatusInternalServerError, ErrorBody(ErrInternalServer));
      return;
    }
    var url := store.Create(record, dbNow);
    ctx.Json(StatusOK, UrlBody(ParseUrlModel(url)));
  }

  /**
   * `MakeShortUrl`: validates the query, reads the caller from the context,
   * parses the duration, then picks the URL, caches it, stores the link and
   * answers; the first failure answers and stops.
   */
  method MakeShortUrl(ctx: Context, cache: Cache, store: LinkTable, port: string, customUrl: string,
                      atoi: Atoi, parseDuration: string -> Option<int>, draws: seq<int>,
                      now: int, dbNow: int, f: Faults)
    requires store.Valid() && store.clock <= dbNow
    requires |draws| >= 6 && DrawsBelow(draws, |Alphabet|)
    modifies ctx, cache, store
    ensures store.Valid()
    ensures Applied(Shorten(ctx.query, old(ctx.keys), atoi, parseDuration, port, customUrl, Token(draws),
                            LookupIn(old(store.rows), ShortUrl(port, customUrl), f.lookupFails),
                            now, old(store.nextId), dbNow, f), ctx, cache, store, dbNow, f)
  {
    var reqResult := ValidateUrlParams(ctx.query, atoi);
    if reqResult.Err? {
      ctx.Json(StatusBadRequest, ErrorBody(ErrBadRequest));
      return;
    }
    var req := reqResult.value;
    var payloadResult := GetAuthPayload(ctx.keys);
    if payloadResult.Err? {
      ctx.Json(StatusUnauthorized, ErrorBody(ErrUnauthorized));
      return;
    }
    var payload := payloadResult.value;
    var duration := 0;
    if req.duration != "" {
      var parsed := parseDuration(req.duration);
      if parsed.None? {
        ctx.Json(StatusInternalServerError, ErrorBody(ErrInternalServer));
        return;
      }
      duration := parsed.value;
    }
    assert DurationOf(req.duration, parseDuration) == Some(duration);
    PlaceLink(ctx, cache, store, req, payload.userId, duration, port, customUrl, draws, now, dbNow, f);
  }
}
