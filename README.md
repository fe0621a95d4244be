# A verified model of the competition-project URL shortener core

The system is a Go HTTP service. Users register with an emailed verification
code, then log in for a bearer token and create short links. The Postgres
repositories store links and users, and the Gin handlers validate requests
and answer with JSON. This project models that core in Dafny:

- **Link table** (`LinkStore.LinkTable`) and **user table** (`UserStore.UserTable`).
  Each is a class holding a sequence of rows in insertion order, a next-id
  counter, and the database clock that fills `created_at`. Every repository
  method is a method on that class. Its postcondition gives the exact new rows
  and result, including the `ErrNoRows` cases and SQL NULL handling. The
  listings are specified by the pure functions `ListUrls` and `ListUsers`:
  - the `OFFSET` is `(page-1)*limit` with 32-bit wrap-around;
  - a negative `OFFSET` or `LIMIT` is a database error;
  - the URL filter is built as SQL text and keeps its precedence:
    `true AND a OR b AND c`;
  - `ORDER BY created_at desc` is read as reverse insertion order; rows
    that share a `created_at` keep reverse insertion order too (see Left out).
- **Handlers** (`UrlApi`, `AuthApi`, `UserApi`, `Middleware`). They work over a
  request context (`Http.Context`: query, path parameters, headers, context
  keys, and the replies written) and a key/value store (`Http.Cache`). Each
  handler is a method whose effect equals a pure decision function:
  - `Shorten` and `Place` for short-link creation;
  - `Register`, `Verify` and `Login` for authentication;
  - `Authorize` for the middleware.
  The lemmas about those functions state the properties of the handler.
- **Validators and utilities** (`Handler`, `Random`, `Nulls`, `TokenPayload`):
  - query-parameter defaults and int32 narrowing;
  - the error body;
  - random tokens and the shuffle, with the random draws as input;
  - the zero-to-NULL mappings;
  - the token payload's expiry rule.

Collaborators the source calls but does not define are parameters of the model:
- `strconv.Atoi`, `time.ParseDuration` and the token verifier are functions
  passed in;
- the bcrypt hash, the JWT, the uuid, the verification code and random draws
  are passed in as values;
- the wall clock is a number, in nanoseconds;
- a failing cache or database call is a fault value passed in.

Where the Go code misbehaves, the model follows the code as written:
- `AuthMiddleware` writes a 401 for a header with fewer than two fields but
  does not return. It then indexes `fields[0]` or `fields[1]`, which is a
  runtime panic (`Go panic` = `Outcome.Panicked`), or it writes a second 401;
- `Verify` calls `errorResponse(nil)` on a wrong code, which panics instead of
  answering 401;
- `Verify` does not return after a failed unmarshal, so it goes on with the
  zero user;
- the `url.HashedUrl == customUrl` branch of `MakeShortUrl` is the only way
  a successful exact-match lookup can go, so its `else` is dead.

## Model

| member | source | states |
|---|---|---|
| Text.EmptyContained | storage/postgres/url.go:97-103 | the pattern `%%` built from an empty search matches every value |
| Text.SelfContained | storage/postgres/url.go:97-103 | every value matches the pattern built from itself |
| Text.LowerChar | api/v1/middleware.go:47 | upper-case ASCII letters map to lower case; every other character is unchanged |
| Text.Lower | api/v1/middleware.go:47 | `strings.ToLower` keeps the length and lowers each character |
| Text.ContainsImpliesIContains | storage/postgres/url.go:97-103 | `ILIKE` is weaker than `LIKE`: a case-sensitive substring is also a case-insensitive one |
| Text.ToInt32 | api/v1/handler.go:109-113 | `int32(x)` is congruent to x modulo 2^32 and is x itself when x fits |
| Nulls.ToNullString | pkg/utils/null.go:7-14 | valid iff the string is non-empty; `.String` gives back the input, "" included |
| Nulls.ToNullInt64 | pkg/utils/null.go:16-22 | valid iff the value is non-zero; `.Int64` gives back the input, 0 included |
| Random.AlphabetIsLowerCase | pkg/utils/random.go:9 | the alphabet has 27 entries, all lower-case letters |
| Random.AlphabetLetters | pkg/utils/random.go:9 | all 26 letters occur; 'z' is listed twice (indices 23 and 26), and no other letter repeats |
| Random.RandomInt | pkg/utils/random.go:16-18 | the result lies in [min, max] and is min plus the draw |
| Random.RandomString | pkg/utils/random.go:21-30 | exactly n characters ("" for n <= 0); character i is the alphabet entry at draw i, so every character is a lower-case letter |
| Random.Swap | pkg/utils/random.go:32-37 | exchanges positions i and j and leaves every other position alone |
| Random.SwapPermutes | pkg/utils/random.go:32-37 | a swap keeps the multiset of elements |
| Random.ShufflePermutes | pkg/utils/random.go:32-37 | the whole Fisher-Yates pass keeps the length and the multiset |
| Random.RandomizeSlice | pkg/utils/random.go:32-37 | shuffles the array in place, returns that same array, and its contents are a permutation of the old contents |
| TokenPayload.NewPayload | pkg/token/payload.go:25-40 | fails iff no uuid could be drawn; otherwise copies user id, email and user type, and `ExpiresAt >= IssuedAt + Duration` |
| TokenPayload.Valid | pkg/token/payload.go:42-47 | `ErrExpiredToken` iff now is strictly after `ExpiresAt` |
| TokenPayload.ValidAtExpiry | pkg/token/payload.go:42-47 | a payload is still valid at the instant it expires |
| TokenPayload.ValidWithinDuration | pkg/token/payload.go:25-47 | with a non-negative duration the payload is valid at every instant up to issue time plus duration |
| TokenPayload.NegativeDurationExpired | pkg/token/payload.go:36-47 | with a negative duration the payload is already expired when checked at or after its expiry reading |
| Repo.Offset | storage/postgres/url.go:93 | `(page-1)*limit` as int32: equal to the product when it fits in 32 bits |
| Repo.Window | storage/postgres/url.go:95 | `LIMIT`/`OFFSET` give at most limit rows, the slice starting at offset, and none past the end |
| Repo.PageError | storage/postgres/url.go:95 | the query fails iff the offset or the limit is negative |
| Repo.Reverse | storage/postgres/url.go:120 | reversal keeps the length |
| Repo.ReverseAt | storage/postgres/url.go:120 | position k of the reversal is position `n-1-k` of the input |
| Repo.ReverseMembers | storage/postgres/url.go:120 | reversal keeps the same members |
| Repo.Keep | storage/postgres/url.go:97-107 | a `WHERE` filter keeps exactly the rows that satisfy it, in order |
| Repo.ReverseDescending | storage/postgres/url.go:120 | reversing an ascending sequence gives a descending one |
| Repo.KeepDescending | storage/postgres/url.go:97-120 | filtering keeps descending order |
| Repo.WindowDescending | storage/postgres/url.go:95-120 | taking a page keeps descending order |
| LinkStore.ReadRow | storage/postgres/url.go:73-83 | a NULL `max_clicks` reads as 0; every other column is copied |
| LinkStore.ReadRows | storage/postgres/url.go:127-146 | reading each row of a result set in order |
| LinkStore.StoreThenRead | storage/postgres/url.go:22-51 | store-then-read returns the caller's record with only id and `created_at` filled in, so `max_clicks` 0 comes back as 0 |
| LinkStore.Rewritten | storage/postgres/url.go:160-200 | an update rewrites `hashed_url`, `max_clicks` and `expires_at`; id, owner, original URL and `created_at` stay |
| LinkStore.Decremented | storage/postgres/url.go:221-232 | `max_clicks - 1` with no floor at zero, and NULL stays NULL; nothing else changes |
| LinkStore.Without | storage/postgres/url.go:203-218 | deletion keeps exactly the rows not matching both id and owner |
| LinkStore.WithoutOrdered | storage/postgres/url.go:203-218 | deletion keeps ids and `created_at` increasing |
| LinkStore.FindHash | storage/postgres/url.go:54-85 | the first row whose `hashed_url` equals the argument exactly, or -1 when none does |
| LinkStore.FindOwned | storage/postgres/url.go:160-200 | a row matching both id and owner, or -1 when none does |
| LinkStore.UrlFilterMeaning | storage/postgres/url.go:97-107 | the filter built as text means `(original_url ILIKE s) OR (hashed_url ILIKE s AND user_id = U)`, and means only the owner check without a search |
| LinkStore.ListUrls | storage/postgres/url.go:88-157 | fails iff offset or limit is negative; at most limit links; `Count` is the size of the whole filtered set; every link is a stored row that matches the filter |
| LinkStore.ListingNewestFirst | storage/postgres/url.go:120 | the listing is newest `created_at` first |
| LinkStore.ListingOwnerScoped | storage/postgres/url.go:105-107 | with a non-zero owner and no search, exactly that owner's rows are listed |
| LinkStore.ListingUnknownOwner | storage/postgres/url.go:105-107 | an owner with no rows gets an empty list and `Count` 0 |
| LinkStore.ListingSearchIgnoresOwner | storage/postgres/url.go:97-107 | a row whose `original_url` matches the search is listed whatever its owner |
| LinkStore.ReadPage | storage/postgres/url.go:127-146 | the row-reading loop returns one record per page row, in order, each read as `ReadRow` |
| LinkStore.ReadRowsAppend | storage/postgres/url.go:127-146 | reading one more row appends its record |
| LinkStore.LinkTable.constructor | storage/postgres/url.go:16-20 | an empty table |
| LinkStore.LinkTable.Create | storage/postgres/url.go:22-51 | appends the row with a fresh id and `created_at = now` (NULL `max_clicks` for 0); returns the caller's record with only those two filled in |
| LinkStore.LinkTable.Get | storage/postgres/url.go:54-85 | `ErrNoRows` iff no `hashed_url` equals the argument; otherwise a stored row with exactly that `hashed_url` |
| LinkStore.LinkTable.GetAll | storage/postgres/url.go:88-157 | the result of the row-reading loop equals `ListUrls` on the current rows |
| LinkStore.LinkTable.Update | storage/postgres/url.go:160-200 | rewrites only the row matching both id and owner, and only three columns; `ErrNoRows` iff there is no such row |
| LinkStore.LinkTable.Delete | storage/postgres/url.go:203-218 | removes exactly the rows matching both id and owner; `ErrNoRows` iff none did |
| LinkStore.LinkTable.DecrementClick | storage/postgres/url.go:221-232 | decrements every row whose `hashed_url` contains the argument and no other; `ErrNoRows` iff none contains it |
| UserStore.NameOf | storage/postgres/user.go:78-79 | a NULL name reads as "" |
| UserStore.ReadProfile | storage/postgres/user.go:50-80 | id, names, email and `created_at`; never the password |
| UserStore.ReadWithPassword | storage/postgres/user.go:149-182 | the profile plus the stored password hash |
| UserStore.StoreThenReadProfile | storage/postgres/user.go:22-80 | store-then-read gives back the user with a fresh id and `created_at`, empty names included, and no password |
| UserStore.FindId | storage/postgres/user.go:50-80 | the row with that id, or -1 when none has it |
| UserStore.FindEmail | storage/postgres/user.go:149-182 | the first row whose email equals the argument exactly, or -1 |
| UserStore.WithoutId | storage/postgres/user.go:213-226 | deletion keeps exactly the rows with another id |
| UserStore.WithoutIdOrdered | storage/postgres/user.go:213-226 | deletion keeps ids and `created_at` increasing |
| UserStore.Listing | storage/postgres/user.go:119-136 | a listed user keeps id, email and `created_at`, and has blank names |
| UserStore.Listings | storage/postgres/user.go:122-138 | reading each row of the page in order |
| UserStore.FirstScanFailure | storage/postgres/user.go:122-134 | the first row whose NULL name cannot be scanned into a string, or -1 |
| UserStore.FailingColumn | storage/postgres/user.go:125-131 | the failing column is `first_name` iff that name is NULL, otherwise `last_name`, as `Scan` fills left to right |
| UserStore.ScanPage | storage/postgres/user.go:122-138 | the scan fails iff some page row has a NULL name, with the error naming the first such row's failing column; otherwise one listed user per row, in order |
| UserStore.ScanRows | storage/postgres/user.go:122-138 | the scanning loop stops at the first NULL name and otherwise returns what `ScanPage` says |
| UserStore.ListUsers | storage/postgres/user.go:83-146 | fails iff offset or limit is negative or a listed name is NULL; at most limit users; `Count` is the size of the whole filtered set |
| UserStore.ListingContents | storage/postgres/user.go:83-146 | every listed user comes from a stored row matching the search, has blank names, and on success the users are exactly `Listing` of each row of the `LIMIT`/`OFFSET` window, in order |
| UserStore.PageRowsMatch | storage/postgres/user.go:88-111 | every row of the requested page is a stored row that matches the search |
| UserStore.ListingNewestFirst | storage/postgres/user.go:110 | the listing is newest `created_at` first |
| UserStore.ListingSearch | storage/postgres/user.go:92-99 | a row is listed iff a search is absent, or the search occurs case-insensitively in a non-NULL first name, last name, or the email |
| UserStore.UserTable.constructor | storage/postgres/user.go:16-20 | an empty table |
| UserStore.UserTable.Create | storage/postgres/user.go:22-47 | appends the row with a fresh id and `created_at = now` (NULL for empty names); returns the caller's record with those filled in |
| UserStore.UserTable.Get | storage/postgres/user.go:50-80 | `ErrNoRows` iff no row has the id; otherwise that row's profile, without the password |
| UserStore.UserTable.GetByEmail | storage/postgres/user.go:149-182 | `ErrNoRows` iff no row has the email; otherwise the first such row with its password hash |
| UserStore.UserTable.GetAll | storage/postgres/user.go:83-146 | the result of the scanning loop equals `ListUsers` on the current rows |
| UserStore.UserTable.UpdateUser | storage/postgres/user.go:185-210 | rewrites only the names of the row with that id; returns id, email and `created_at`, with blank names; `ErrNoRows` iff there is no such row |
| UserStore.UserTable.DeleteUser | storage/postgres/user.go:213-226 | removes the row with that id; `ErrNoRows` iff there was none |
| Http.Lookup | api/v1/handler.go:74-83 | `ctx.Query` is the value under the key, or "" when it is absent |
| Http.Context.constructor | api/v1/middleware.go:29-31 | a fresh request: no replies, not aborted, not continued |
| Http.Context.Json | api/v1/user.go:22-36 | appends one reply and changes nothing else |
| Http.Context.AbortWithStatusJson | api/v1/middleware.go:33-38 | appends one reply and marks the chain aborted |
| Http.Context.Set | api/v1/middleware.go:62 | stores the value under the key |
| Http.Context.Next | api/v1/middleware.go:63 | marks the chain continued |
| Http.Cache.constructor | api/v1/handler.go:39 | an empty store |
| Http.Cache.Set | api/v1/url.go:58 | stores value and TTL under the key, unless the store fails, in which case its error is returned and nothing is written |
| Http.Cache.Get | api/v1/auth.go:160 | the stored value, or none for a missing key |
| Handler.ErrorResponse | api/v1/handler.go:62-66 | the body's error is exactly the error's text; a nil error is a panic |
| Handler.IntParam | api/v1/handler.go:88-106 | the default when the value is absent or empty, otherwise what `Atoi` makes of it |
| Handler.ValidateUrlParams | api/v1/handler.go:68-86 | an error iff `max_clicks` is present and not an integer; `max_clicks` defaults to 0; `original_url` and `duration` are copied unchecked |
| Handler.ValidateGetAllParams | api/v1/handler.go:88-114 | an error iff `limit` or `page` is not an integer (limit reported first); `search` is copied; both are narrowed modulo 2^32 |
| Handler.GetAllParamsDefaults | api/v1/handler.go:88-114 | no `limit` or `page` gives limit 10, page 1, and offset 0 |
| Handler.GetAllParamsInRange | api/v1/handler.go:109-113 | integers that fit in 32 bits pass through unchanged |
| Handler.GetAllParamsWrap | api/v1/handler.go:109-113 | `limit` 2^32 + 5 is narrowed to 5 |
| Middleware.WordLen | api/v1/middleware.go:40 | the length of the leading run of non-space characters |
| Middleware.Fields | api/v1/middleware.go:40 | `strings.Fields` gives only non-empty words without white space |
| Middleware.WordLenOfWord | api/v1/middleware.go:40 | a word followed by a space or by the end is read whole |
| Middleware.FieldsSpaced | api/v1/middleware.go:40 | splitting words joined by single spaces gives the words back |
| Middleware.ToAuthPayload | api/v1/middleware.go:87-101 | `VerifyToken` copies id, user id, email, issue and expiry times |
| Middleware.Authorize | api/v1/middleware.go:29-64 | every reply is 401; an empty header gives one 401 and stops; a panic iff the header has no fields, or one field that is the bearer scheme; a payload iff the scheme lower-cases to "bearer", there are at least two fields and the second verifies |
| Middleware.BearerTokenIsSecondField | api/v1/middleware.go:47-63 | with the bearer scheme the token checked is exactly the second field; later fields are ignored |
| Middleware.OtherSchemeRefused | api/v1/middleware.go:47-53 | any other scheme gives a 401 naming it, and no payload |
| Middleware.LoneFieldTwoReplies | api/v1/middleware.go:41-53 | a lone non-bearer field writes two 401s because the format check does not return |
| Middleware.LoneBearerPanics | api/v1/middleware.go:41-54 | a lone field that lower-cases to "bearer" writes one 401 and then panics on `fields[1]` |
| Middleware.BareBearerPanics | api/v1/middleware.go:41-54 | the header "Bearer" writes a 401 and then indexes `fields[1]`, which panics |
| Middleware.AuthMiddleware | api/v1/middleware.go:29-64 | the replies, panic and stored payload are those of `Authorize`; the chain continues iff a payload was stored, and is aborted iff a reply was written |
| Middleware.GetAuthPayload | api/v1/middleware.go:66-85 | "not found" when the key is absent, "unknown user" when it holds another type, otherwise a copy of id, user id and email |
| Middleware.PassedGateHasPayload | api/v1/middleware.go:62-85 | after the middleware lets a request through, `GetAuthPayload` finds the verified token's id, user id and email |
| UrlApi.ShortUrl | api/v1/url.go:55-57 | the short URL is `"http://localhost" + port + "/v1/urls/"` followed by the token |
| UrlApi.ShortUrlInjective | api/v1/url.go:55-69 | different tokens give different short URLs |
| UrlApi.ParseUrlModel | api/v1/url.go:107-121 | `max_clicks` 0 is reported as null and any other value as itself; other fields are copied |
| UrlApi.StoredClicksReported | api/v1/url.go:91-104 | the response built from the stored row equals the one built from the request, with id and `created_at` filled in |
| UrlApi.Token | api/v1/url.go:56 | six lower-case letters |
| UrlApi.LookupIn | api/v1/url.go:66-68 | found iff some row has exactly that `hashed_url` and the lookup did not fail |
| UrlApi.DurationOf | api/v1/url.go:46-53 | duration 0 when none is given, otherwise what `ParseDuration` makes of it |
| UrlApi.Choice | api/v1/url.go:54-88 | refusal iff an alias is given and its URL is already stored; whenever a cache key is written it is the chosen short URL |
| UrlApi.ChooseUrl | api/v1/url.go:54-88 | random six letters without an alias, otherwise the result of looking up the alias's full URL, exactly as `Choice` says |
| UrlApi.Place | api/v1/url.go:54-104 | a stored record belongs to the caller, keeps the URL and `max_clicks`, and expires at now + duration; the cache maps the link to the original URL with that duration as TTL; no record means a 400 or 500 and no cache write |
| UrlApi.Shorten | api/v1/url.go:29-105 | invalid parameters give 400 and a missing payload 401, both before any write |
| UrlApi.RandomTokenLink | api/v1/url.go:55-63 | without an alias the link is the prefix plus the random token, cached before it is stored |
| UrlApi.TakenAliasRefused | api/v1/url.go:64-80 | an alias whose short URL is already stored gets 400 `ErrUrlUnavailable` and nothing is written |
| UrlApi.AliasLink | api/v1/url.go:64-97 | a free alias becomes the link; any other lookup error leaves the link "" and creation still proceeds |
| UrlApi.NoDurationExpiresNow | api/v1/url.go:90-96 | with no duration the link expires at the instant it is created |
| UrlApi.PlaceLink | api/v1/url.go:54-104 | the cache, store and replies change exactly as `Place` says |
| UrlApi.MakeShortUrl | api/v1/url.go:29-105 | the cache, store and replies change exactly as `Shorten` says |
| AuthApi.ValidatePassword | api/v1/auth.go:98-113 | the byte loop accepts iff the password has at least 6 bytes, a byte in 'a'..'z' and a byte in '0'..'9' |
| AuthApi.StrongIsOrderFree | api/v1/auth.go:104-110 | reordering the bytes does not change the verdict |
| AuthApi.NeutralBytesIgnored | api/v1/auth.go:104-110 | changing bytes that are neither small letters nor digits does not change the verdict |
| AuthApi.Register | api/v1/auth.go:33-96 | a bad body gives 400, a weak password 400 before the email lookup, and a known email `EMAIL_EXISTS`; a pending user is kept iff none of these apply, under `"user_"+email` for 10 minutes |
| AuthApi.SendVerificationCode | api/v1/auth.go:115-139 | stores the code under key + email for 2 minutes; reports an error iff code generation, the store or sending failed |
| AuthApi.RegisterUser | api/v1/auth.go:33-96 | reply and cache writes as `Register` says, then the code is sent under `"register_code_"+email` |
| AuthApi.WeakPasswordFirst | api/v1/auth.go:44-55 | a weak password is refused the same way whatever users are stored |
| AuthApi.Unmarshal | api/v1/auth.go:167 | the pending user is decoded from its JSON; any other text fails |
| AuthApi.Verify | api/v1/auth.go:150-210 | a user is created only when a stored code equals the submitted one; a bad body or a missing pending user gives 400 and nothing else; a panic never creates a user |
| AuthApi.Created | api/v1/auth.go:186-209 | 201 iff the insert and the token both succeed, and then the body carries the new id, the registered profile and `created_at` |
| AuthApi.CreateVerified | api/v1/auth.go:186-209 | inserts the user unless the insert fails, and writes exactly the reply `Created` gives |
| AuthApi.UndecodableGoesOn | api/v1/auth.go:167-194 | an undecodable pending value gives 403 first and then goes on with the zero user: its code is looked up under the bare `register_code_` key, so a second 403, a panic, or the creation of the empty user follows |
| AuthApi.ExpiredCodeRefused | api/v1/auth.go:174-179 | a missing code gives 403 and creates no user |
| AuthApi.WrongCodePanics | api/v1/auth.go:180-184 | a wrong code reaches `errorResponse(nil)` and panics, with no reply and no user |
| AuthApi.RegisterThenVerify | api/v1/auth.go:77-209 | the pending user and code written by registration, then the right code, create that user with the hashed password and answer 201 |
| AuthApi.VerifyEmail | api/v1/auth.go:150-210 | replies, panic and the user table change exactly as `Verify` says |
| AuthApi.Login | api/v1/auth.go:221-272 | an unknown email is 403 "wrong email or password"; a 201 means the email is stored, the password matched its hash, and a token was made |
| AuthApi.LoginDoesNotRevealEmails | api/v1/auth.go:233-250 | an unknown email and a wrong password get the same answer |
| AuthApi.LoginUser | api/v1/auth.go:221-272 | writes exactly the reply `Login` gives |
| UserApi.ParseUserModel | api/v1/user.go:164-172 | copies id, names, email and `created_at` |
| UserApi.ResponseHidesPassword | api/v1/user.go:164-172 | the response does not depend on the password and is the same after a round trip through storage |
| UserApi.GetUsersResponse | api/v1/user.go:150-162 | keeps `Count`; the list has the input's length and order, each element the parsed user; empty input gives an empty list |
| UserApi.ListedResponse | api/v1/user.go:47-65 | every user in a listing response has blank names and comes from a stored row matching the search |
| UserApi.GetUser | api/v1/user.go:22-36 | a non-integer id is 400 before storage is read; an unknown id is 500; otherwise 200 with the profile |
| UserApi.DeleteUser | api/v1/user.go:99-115 | a non-integer id is 400 and nothing is deleted; otherwise the row is removed, 500 if it was missing and 200 if not |
| UserApi.GetAllUsers | api/v1/user.go:47-65 | a bad `limit` or `page` is 400, a failed listing 500, otherwise 200 with the mapped listing |

## Left out

- The redirect and click-limit engine: `GetUrl`, `UpdateUrl` and `DeleteUrl` are routed in api/api.go but never defined, so there is nothing to model.
- Wiring, configuration and routing (cmd/main.go, config/config.go, api/api.go, storage/storage.go): no logic beyond construction.
- `GetUserByEmail` in api/v1/user.go, and the rest of api/models: they hold no rule beyond the repository calls that are modelled.
- The `UpdateUser` handler in api/v1/user.go: it builds the `repo.User` without an `Id`, so the update matches no row and the handler always answers 400. Only the repository's `UpdateUser` is modelled.
- `GenerateQRCode`: its body is empty in the source.
- bcrypt (pkg/utils/password.go), JWT creation and verification (pkg/token/maker.go is an interface), and uuid generation: these are foreign calls. Their results are inputs.
- Email delivery and the goroutine that sends the code: this is concurrency. `RegisterUser` runs the send after the reply, one step after the other, and a send failure only affects what would be logged.
- Wall-clock expiry of cache entries: an entry keeps the TTL it was written with and stays until it is overwritten.
- `time.ParseDuration`, `strconv.Atoi` and RFC 3339 formatting: these are library parsing and printing. They are function parameters, and times stay integers.
- JSON binding rules (`binding:"required"` and the field types): a bind failure is an input `Err`.
- `LIKE`/`ILIKE` wildcards inside the search text, and SQL injection through `fmt.Sprintf`: the match is plain substring containment.
- Text.Lower, Text.LowerChar: only ASCII letters are lowered, not full Unicode case mapping.
- Concurrent `DecrementClick` requests: the model is sequential.
- Database connection failures:
  - they are modelled where the handler has its own path for them: the custom-alias lookup, link creation, and user creation in `Verify`;
  - `Login` answering 500 for a failed lookup other than `ErrNoRows` is not modelled;
  - Register's ignored `GetByEmail` error is not modelled either.
- AuthApi.Verify: a stored code that is not plain text is treated as a mismatch.
- AuthApi.Unmarshal: every stored value that is not a user record fails with one fixed error text, that of a JSON string literal. `json.Unmarshal`'s real text depends on the value: a bare number gives `cannot unmarshal number …`, and non-JSON text gives `invalid character …`. The 403 body after a failed decode in `Verify` carries this stand-in.
- Handler.ErrUrlUnavailable: the error is referenced but not declared in the source. Its text is a stand-in.
- Ties in `ORDER BY created_at desc`: both `Create` methods allow a `created_at` equal to the previous row's, and Postgres leaves the order of such rows open. `LinkStore.ListUrls`, `UserStore.ListUsers`, both `GetAll` methods and `UserStore.ListingContents` fix it as reverse insertion order, so for tied rows they promise one page where Postgres may return another. `ListingNewestFirst` in both stores holds for every tie order.
- Random.RandomInt: a `max` below `min` makes `rand.Int63n` panic; the model requires a draw in [0, max-min], so that panic is not modelled (every caller passes 1 and 10).
- `Create` in both repositories fills id and `created_at` into the caller's record and returns that same record by reference. The model returns the filled-in record as a value and does not model the aliasing.
- Interfaces that disagree with their implementations:
  - `UrlStorageI.Delete(u)` versus `Delete(id, userID)`, and the `UserStorageI` methods: the implementations are modelled;
  - the custom alias missing from `CreateShortUrlRequest`: the alias is a separate input of `MakeShortUrl`;
  - `UserID` missing from `GetAllUrlsParams`: the model gives the parameters a `userId` field.
- Http.Context: headers are keyed by their lower-case name; Gin's canonical header case is not modelled.
