# be-tickitz core, modelled in Dafny

be-tickitz is the backend of a movie-ticket booking service. Its core is modelled here in four parts.

- **Catalog reads.** The movie repository serves four listings (upcoming, popular, the general listing with its search and genre filters, and a single movie's detail). Each read goes through the Redis cache first (cache-aside):
  - a hit returns early;
  - a cache error counts as a miss;
  - a query error returns without writing to the cache;
  - a successful query is written back for five minutes.
- **List and patch building.**
  - `normalizeInputArray` cleans the genre and cast form fields.
  - `UpdateMovie` composes a column map from its optional fields.
  - The profile repository builds an `UPDATE ... SET` statement with numbered `$n` placeholders.
- **The account store.**
  - Registration inserts a user row and its profile row in one transaction.
  - The password and profile updates change rows in place.
- **The handlers.** Each HTTP handler is a chain of checks. Every failed check maps to a status code and a message, and a later collaborator call is made only when the earlier checks pass.

## Structure

- The database, the Redis server and the account tables are objects whose fields the methods update:
  - `MovieRepository` holds a movie table and a `Redis` whose `entries` map the methods reassign;
  - `Database` holds the `users` and `profiles` tables.
- Collaborators whose bodies are not modelled become inputs: the outcome of each call, a database error, the hasher's verdict, the token or the stored image path. The handlers record the calls they make, in order, and return the response they write.
- Go's 64-bit `int`, `strconv.Atoi`, the `%d` verb, `strings.TrimSpace`, `strings.Split` on `","` and `strings.Join` are written out in `goint.dfy` and `text.dfy`. The offsets, keys and page parameters follow Go's behaviour exactly:
  - wrap-around on overflow;
  - `Atoi` returns 0 with a syntax error, and clamps with a range error.
- Each method is tied to a specification function and the properties are proved about that function:
  - the cache-aside read is `CacheAside`;
  - the normalisation is `Normalize`;
  - the statement is `UpdateStatement`;
  - the password change is `PasswordReply` and `PasswordCalls`.

| file | contents |
|---|---|
| `wrappers.dfy` | `Option`, `Result` |
| `goint.dfy` | int64 range, wrap-around, `%d`, `strconv.Atoi` |
| `text.dfy` | white space, `TrimSpace`, `Split`, `Join`, ASCII `Lower`, `Contains` |
| `models.dfy` | `Movie`, `User`, `Profile` |
| `redis_util.dfy` | the JSON codec, `GetCacheRedis`, `SetCacheRedis` (class `Redis`) |
| `movie_repo.dfy` | offsets, keys, listing queries, the row loop, cache-aside (class `MovieRepository`) |
| `store.dfy` | the `users` and `profile` tables (class `Database`) |
| `auth_repo.dfy` | `FindByEmail`, `CreateUser` (class `AuthRepository`) |
| `profile_repo.dfy` | the `SET` builder and its effect, the password lookup and update (class `ProfileRepository`) |
| `http.dfy` | status codes, the response envelope, `DefaultQuery`, `GetUserFromContext` |
| `admin_handler.dfy`, `order_handler.dfy`, `profile_handler.dfy`, `auth_handler.dfy`, `movie_handler.dfy` | the handlers |

## Model

| member | source | states |
|---|---|---|
| GoInt.Wrap64 | internal/repos/movie.repo.go:26 | Go `int` arithmetic: the result is in the int64 range, congruent to the exact value modulo 2^64, and equal to it when it fits |
| GoInt.FormatIntInjective | internal/repos/movie.repo.go:28 | `%d` prints distinct integers differently |
| GoInt.FormatIntHasNoColon | internal/repos/movie.repo.go:28 | a number printed with `%d` never contains the key separator ":" |
| GoInt.Atoi | internal/handlers/movie.handler.go:32 | `strconv.Atoi` always yields an int64; a syntax error yields 0; success only on a well-formed numeral |
| GoInt.AtoiFormatInt | internal/handlers/movie.handler.go:32 | `Atoi` reads back every int64 that `%d` prints, without error (round trip) |
| GoInt.AtoiOverflowBeforeBadByte | internal/handlers/movie.handler.go:132 | a digit run too large for uint64 gives a range error and the clamped maximum, whatever follows it |
| Text.TrimSpaceShape | internal/handlers/admin.handler.go:302 | `TrimSpace` returns a slice of its input with no white space at either end |
| Text.TrimSpaceTrims | internal/handlers/admin.handler.go:302 | the trimmed string has no white space at either end and no character the input lacks |
| Text.TrimSpaceFixed | internal/handlers/admin.handler.go:302 | a string with no white space at either end is left unchanged |
| Text.Split | internal/handlers/admin.handler.go:300 | `strings.Split(s, ",")` returns at least one piece and no piece contains a comma |
| Text.JoinSplit | internal/handlers/admin.handler.go:300 | joining the pieces of a split with "," gives back the input |
| Text.SplitJoin | internal/handlers/admin.handler.go:300 | splitting a comma-free list joined with "," gives back the list |
| RedisUtil.Marshal | internal/utils/redis.util.go:38-42 | encoding fails exactly when the encoder refuses the value |
| RedisUtil.Unmarshal | internal/utils/redis.util.go:29-32 | only a document written for the destination's type decodes, and it decodes to that value |
| RedisUtil.CodecRoundTrip | internal/utils/redis.util.go:29-41 | decoding what the encoder wrote gives the value back |
| RedisUtil.ReadOutcome | internal/utils/redis.util.go:12-35 | "found" is reported only together with no error and a decoded value; a missing key is not found with no error; any other fetch error, or a decode failure, is reported as an error |
| RedisUtil.WriteOutcome | internal/utils/redis.util.go:37-47 | an encoding or SET failure returns its error and leaves the server as it was; success stores the key with the encoded value and TTL; other keys are untouched |
| RedisUtil.SetThenGet | internal/utils/redis.util.go:12-47 | a GET right after a successful SET of the same key finds the value that was set |
| RedisUtil.Redis.Get | internal/utils/redis.util.go:12-35 | the server is unchanged, and the result is the outcome classified by `ReadOutcome` |
| RedisUtil.Redis.Set | internal/utils/redis.util.go:37-47 | the new server contents and the error are those of `WriteOutcome` |
| MovieRepo.Offset | internal/repos/movie.repo.go:25-26 | the offset is an int64; it equals `(page-1)*pageSize` whenever that fits |
| MovieRepo.OffsetOfPage | internal/repos/movie.repo.go:25-26 | for an unvalidated page between -2^59 and 2^59 (beyond that the product can wrap, see `HugePageWrapsToFirst`): the offset is exactly `(page-1)*pageSize`; page 1 starts at row 0; a page of 1 or more gives a non-negative offset; a page of 0 or less gives at most `-pageSize` |
| MovieRepo.HugePageWrapsToFirst | internal/repos/movie.repo.go:25-26 | page 2^62 + 1 of a 4-row listing wraps to offset 0 |
| MovieRepo.NumberedKeysInjective | internal/repos/movie.repo.go:28 | the upcoming, popular and detail keys determine their page or id |
| MovieRepo.KeyFamiliesDisjoint | internal/repos/movie.repo.go:28 | no two of the four key families share a key |
| MovieRepo.AllKeyCollides | internal/repos/movie.repo.go:158 | a search containing ":genre:" gives the same general-listing key as a different (search, genre) pair |
| MovieRepo.Insert | internal/repos/movie.repo.go:53 | inserting into an ordered list keeps it ordered and adds exactly that movie (multiset) |
| MovieRepo.SortRows | internal/repos/movie.repo.go:53 | the server's `ORDER BY` result is ordered and is a permutation of its input |
| MovieRepo.KeepGenre | internal/repos/movie.repo.go:182-183 | the genres kept by a genre filter applied before grouping are exactly the matching ones |
| MovieRepo.Select | internal/repos/movie.repo.go:181-183 | every admitted movie contributes its grouped row, and every row is the grouped row of an admitted movie |
| MovieRepo.Window | internal/repos/movie.repo.go:54 | `LIMIT` bounds the page length |
| MovieRepo.Serve | internal/repos/movie.repo.go:54-57 | a query that starts is answered; a clean answer has a non-negative offset and is the `LIMIT`/`OFFSET` window; a negative offset ends the row stream with an error and no rows |
| MovieRepo.Drained | internal/repos/movie.repo.go:64-81 | the loop, with the stream error checked after it, succeeds exactly when no scan fails and the stream ended cleanly, and then yields every delivered row |
| MovieRepo.CollectRows | internal/repos/movie.repo.go:63-81 | the append loop yields `Drained` |
| MovieRepo.DrainedAsWritten | internal/repos/movie.repo.go:64-81 | as written (no `rows.Err()`), the loop succeeds whenever no scan fails, and yields the delivered rows |
| MovieRepo.CollectRowsAsWritten | internal/repos/movie.repo.go:63-81 | the append loop as written yields `DrainedAsWritten` |
| MovieRepo.NegativeOffsetSwallowed | internal/repos/movie.repo.go:26-81 | with a negative offset the server ends the stream with an error; the loop as written returns an empty page, while the corrected loop returns the error |
| MovieRepo.FindMovie | internal/repos/movie.repo.go:250 | the movie found has the id and is in the table; none is found only when no movie has the id |
| MovieRepo.DetailFetch | internal/repos/movie.repo.go:257-272 | a detail row has the requested id and comes from the table; an id no movie has is an error; a genre or cast JSON decoding error is returned as the query's error |
| MovieRepo.FetchedPage | internal/repos/movie.repo.go:54-81 | with the source's loop, a successful listing is a prefix of the requested window of the ordered rows: at most `limit` rows, still ordered, each one of the rows; empty for a negative offset; the whole window when the connection stays healthy |
| MovieRepo.FetchedCorrected | internal/repos/movie.repo.go:54-81 | with the stream's error checked, a successful listing is exactly the requested window, at a non-negative offset |
| MovieRepo.FetchDiffersOnlyOnStreamError | internal/repos/movie.repo.go:63-81 | the source's loop and the corrected one agree whenever the corrected one succeeds; they differ only when the stream ended with an error, where the source reports success |
| MovieRepo.SortedSelected | internal/repos/movie.repo.go:181-188 | every row of an ordered listing is the grouped row of a table movie that the `WHERE` clause admits |
| MovieRepo.UpcomingPage | internal/repos/movie.repo.go:51-81 | with the source's loop, an upcoming page holds at most 4 table movies, all released after now, ordered by release date ascending |
| MovieRepo.PopularPage | internal/repos/movie.repo.go:116-145 | with the source's loop, a popular page holds at most 4 table movies, ordered by popularity descending |
| MovieRepo.GroupedMatches | internal/repos/movie.repo.go:181-183 | a general-listing row matches the search case-insensitively; when a genre is asked for, it carries that genre and only that genre |
| MovieRepo.AllPage | internal/repos/movie.repo.go:181-215 | with the source's loop, a general page holds at most 12 grouped table movies, latest release first, each matching the search and the genre |
| MovieRepo.DetailIsTheMovie | internal/repos/movie.repo.go:250-265 | a detail answer is the movie with the id; with healthy collaborators an existing id is always found |
| MovieRepo.AsList | internal/repos/movie.repo.go:87 | the listing result is carried unchanged into the cache payload, errors included |
| MovieRepo.DetailAsItem | internal/repos/movie.repo.go:277 | the detail result is carried unchanged into the cache payload, errors included |
| MovieRepo.CacheAside | internal/repos/movie.repo.go:31-87 | a hit returns the cached value without a query or a write; a read error or a miss queries the database and returns its result; a failed query writes nothing; a successful one is written back with the 5-minute TTL, a failed write being ignored |
| MovieRepo.DetailReadTwice | internal/repos/movie.repo.go:223-277 | a second detail read after a successful one is a hit: the same movie, no query, no write |
| MovieRepo.MovieRepository.GetUpcomingMovies | internal/repos/movie.repo.go:24-88 | result, new cache contents and whether the database was queried are those of `CacheAside` over the upcoming query, with the rows collected by the source's loop (no `rows.Err()` check, so a stream error yields the rows delivered so far, and they are cached) |
| MovieRepo.MovieRepository.GetPopularMovies | internal/repos/movie.repo.go:90-152 | the same for the popular query, with the source's loop |
| MovieRepo.MovieRepository.GetAllMovies | internal/repos/movie.repo.go:154-221 | the same for the general query with search and genre, with the source's loop |
| MovieRepo.MovieRepository.GetMovieDetail | internal/repos/movie.repo.go:223-278 | the same for the detail query, whose decoding errors are returned and not cached |
| Store.UserByEmail | internal/repos/auth.repo.go:22-24 | the row found has the e-mail and is in the table; none is found exactly when no user has it |
| Store.UserById | internal/repos/profile.repo.go:93-95 | the row found has the id; none is found exactly when no user has it |
| Store.ProfileOf | internal/repos/profile.repo.go:25-31 | the row found belongs to the user; none is found exactly when the user has no profile row |
| Store.FindAppended | internal/repos/auth.repo.go:21-41 | after a user with a new e-mail is appended, looking the e-mail up finds that user |
| Store.ProfileAppended | internal/repos/auth.repo.go:46-47 | after a profile row is appended for a user without one, looking the user up finds that row |
| Store.AppendAccountValid | internal/repos/auth.repo.go:38-54 | appending a user with a fresh id and e-mail, together with its profile row, keeps ids and e-mails unique and users and profiles paired |
| AuthRepo.AuthRepository.FindByEmail | internal/repos/auth.repo.go:21-29 | an unknown e-mail is an error (no row), never "no user" without one; a found user has the e-mail and is the table's row for it |
| AuthRepo.AuthRepository.CreateUser | internal/repos/auth.repo.go:31-57 | the caller's user gets the new id once the transaction has begun; success appends exactly one user row (role "user") and one profile row with that id; any failure (begin, either insert, commit, a duplicate e-mail or id) leaves both tables unchanged; validity is kept |
| AuthRepo.CreatedAccountReadable | internal/repos/auth.repo.go:40-47 | after registration the e-mail finds the new user with role "user", and the id finds its empty profile row |
| ProfileRepo.UpdateStatement | internal/repos/profile.repo.go:44-85 | there is no statement exactly when no field is present; otherwise k present fields give k + 1 SET entries with `updated_at = $(k+1)` last, and k + 2 arguments ending with the update time and the user id; the WHERE placeholder is `$(k+2)`, the argument count |
| ProfileRepo.Step | internal/repos/profile.repo.go:49-51 | appending one entry numbered `argID` and its value keeps the entries and arguments those of the fields so far |
| ProfileRepo.BuildUpdate | internal/repos/profile.repo.go:41-85 | the builder's `setParts`, `args` and `argID` give exactly `UpdateStatement` |
| ProfileRepo.PlaceholderRoundTrip | internal/repos/profile.repo.go:49 | the placeholder number printed into `col = $n` is read back as n |
| ProfileRepo.PatchAll | internal/repos/profile.repo.go:81-85 | the patch keeps every row and the key of every row |
| ProfileRepo.StatementPatches | internal/repos/profile.repo.go:44-85 | executing the built statement on a row (each `$i` bound to `args[i-1]`) sets exactly the present fields and `updated_at`; absent fields, `point` and `user_id` are untouched |
| ProfileRepo.ExecutePatches | internal/repos/profile.repo.go:81-87 | executing the statement on the table patches the caller's rows and leaves every other row as it was |
| ProfileRepo.PatchKeepsValid | internal/repos/profile.repo.go:81-87 | patching profiles keeps profile keys unique and users and profiles paired |
| ProfileRepo.StoredHash | internal/repos/profile.repo.go:91-101 | the hash read is the stored password of a user with the id; with no fault an existing user is always found; on error the hash is empty |
| ProfileRepo.WithPassword | internal/repos/profile.repo.go:103-107 | the update keeps every row, with its id and e-mail |
| ProfileRepo.PasswordUpdated | internal/repos/profile.repo.go:91-107 | after the password of an existing user is updated, the hash read back is the new one |
| ProfileRepo.PasswordKeepsValid | internal/repos/profile.repo.go:103-107 | a password update keeps user ids unique and users and profiles paired |
| ProfileRepo.ProfileRepository.GetProfile | internal/repos/profile.repo.go:24-39 | a database error is returned; otherwise a row is returned exactly when the user has a profile, and it is that user's row |
| ProfileRepo.ProfileRepository.UpdateProfile | internal/repos/profile.repo.go:41-89 | a statement executes exactly when some field is present; with none it returns nil and nothing changes; otherwise the profiles become `PatchAll`, unless the database fails; users unchanged; validity kept |
| ProfileRepo.ProfileRepository.VerifyPassword | internal/repos/profile.repo.go:91-101 | returns the stored hash or the lookup error, whatever the old password |
| ProfileRepo.ProfileRepository.UpdatePassword | internal/repos/profile.repo.go:103-107 | on success the users become `WithPassword`; on error nothing changes; profiles unchanged; validity kept |
| Http.GetUserFromContext | internal/utils/getUser.go:11-23 | the caller is returned exactly when the context holds claims of the right type, and it is their user id and role |
| AdminHandler.KeptIsClean | internal/handlers/admin.handler.go:301-305 | the kept pieces of a comma split are non-empty, trimmed and comma-free |
| AdminHandler.NormalizeIsClean | internal/handlers/admin.handler.go:298-310 | every name the normalisation returns is non-empty, has no white space at either end and no comma |
| AdminHandler.NormalizeInputArray | internal/handlers/admin.handler.go:298-310 | the nested loop returns `Normalize(input)`: the in-order concatenation, over the items, of each item's trimmed non-empty comma-separated pieces; every element is clean |
| AdminHandler.NormalizeAppend | internal/handlers/admin.handler.go:298-310 | normalising a concatenation is the concatenation of the normalisations |
| AdminHandler.NormalizeFixesClean | internal/handlers/admin.handler.go:298-310 | a list of clean names is its own normalisation |
| AdminHandler.NormalizeIdempotent | internal/handlers/admin.handler.go:298-310 | normalising twice gives what normalising once gives |
| AdminHandler.CommaListIsRepeatedField | internal/handlers/admin.handler.go:298-310 | one value listing comma-free names joined by commas normalises like the names sent as separate values |
| AdminHandler.KeptSplitsPerName | internal/handlers/admin.handler.go:298-310 | for values without commas, normalising keeps each trimmed non-empty value as one name, in order |
| AdminHandler.ActionDrama | internal/handlers/admin.handler.go:38-39 | `["Action,Drama"]` and `["Action", "Drama"]` normalise to the same list |
| AdminHandler.SentAmongStep | internal/handlers/admin.handler.go:218-236 | considering one more column adds its value exactly when the field was sent |
| AdminHandler.NothingSent | internal/handlers/admin.handler.go:218-250 | a request that sends no field and no image yields an empty update map |
| AdminHandler.ComposeUpdate | internal/handlers/admin.handler.go:218-236 | the six insertions give `Requested(body)`: a column is in the map exactly when its field was sent, mapped to the sent value |
| AdminHandler.AttachImages | internal/handlers/admin.handler.go:237-250 | the images are saved poster first; the handler goes on exactly when every uploaded image got a stored path, and each path then goes into the map under its column |
| AdminHandler.UpdateMovie | internal/handlers/admin.handler.go:192-268 | a bind failure gives 400 with no call; a failed lookup gives 404 and no update call; a failed image save stops the handler with no update call; otherwise the call sequence is lookup, saves, update (map, normalised genres and casts) and, on success, a re-fetch; the response is 500 with the update error or 200 with the re-fetched movie |
| OrderHandler.OrderFor | internal/handlers/order.handler.go:68-75 | the order carries the caller's id and the request's schedule, payment and contact fields |
| OrderHandler.CreateOrder | internal/handlers/order.handler.go:36-93 | a bind failure gives 400 and missing claims give 401, both with no call; a failed seat lookup or a count mismatch gives 400 "Invalid seat codes"; the order is created exactly when every check passes, and the calls are then exactly the seat lookup and the creation with `OrderFor` and the seat ids; a creation error gives 500; success gives 201 with the created order |
| OrderHandler.LookupById | internal/handlers/order.handler.go:106-175 | a non-integer id gives 400 with no call; otherwise one call with the parsed id, then 500 on its error or 200 with its data |
| OrderHandler.GetSchedules | internal/handlers/order.handler.go:106-134 | a non-integer `movie_id` gives 400 with no call; otherwise one call with the parsed id; a repository error gives 500; success is 200 with the schedules |
| OrderHandler.GetAvailableSeats | internal/handlers/order.handler.go:147-175 | a non-integer `schedule_id` gives 400 with no call; otherwise one call with the parsed id; a repository error gives 500; success is 200 with the seats |
| OrderHandler.GetTransactionDetail | internal/handlers/order.handler.go:189-217 | a non-integer id gives 400 with no call; otherwise one call with the parsed id; a lookup error gives 404; success is 200 with the order |
| OrderHandler.GetOrderHistory | internal/handlers/order.handler.go:229-256 | missing claims give 401 with no call; otherwise one call for the caller; a repository error gives 500; success is 200 with the orders |
| ProfileHandler.PatchFor | internal/handlers/profile.handler.go:107-119 | the patch carries the avatar path exactly when a file was uploaded |
| ProfileHandler.NoUploadKeepsAvatars | internal/handlers/profile.handler.go:107-119 | without an upload no row's avatar changes |
| ProfileHandler.UploadSetsAvatar | internal/handlers/profile.handler.go:107-121 | with an upload, the caller's row gets the stored path (even an empty one) and no other row changes |
| ProfileHandler.PasswordReply | internal/handlers/profile.handler.go:152-228 | success exactly when the old password is verified and the new hash is computed and stored, answered with 200; 400 exactly for a bad body or a mismatched confirmation; 401 exactly for missing claims or a failed verification; 500 exactly for a hashing or update failure |
| ProfileHandler.PasswordCalls | internal/handlers/profile.handler.go:182-221 | the password is updated exactly when verification passes and the new hash is computed, and then for the caller with that hash; the hash lookup comes first once the request gets past the confirmation check |
| ProfileHandler.ProfileHandler.GetProfile | internal/handlers/profile.handler.go:33-68 | missing claims give 401 with no call; a repository error gives 404; success is 200 with the row's six visible fields copied |
| ProfileHandler.ProfileHandler.UpdateProfile | internal/handlers/profile.handler.go:86-135 | missing claims give 401 and a bad body 400, both leaving the profiles unchanged; otherwise the profiles become the patch or stay unchanged, and the answer is 500 on a database error or 200 |
| ProfileHandler.ProfileHandler.ChangePassword | internal/handlers/profile.handler.go:152-228 | the response is `PasswordReply` and the calls are `PasswordCalls`; the users get the new hash exactly on success; the profiles are unchanged; validity is kept |
| ProfileHandler.ChangedPasswordIsStored | internal/handlers/profile.handler.go:214-221 | after a successful change, the next verification compares against the new hash |
| AuthHandler.Compare | internal/handlers/auth.handler.go:69-77 | the corrected check proceeds exactly on a match without error and never crashes |
| AuthHandler.WrongPasswordCrashes | internal/handlers/auth.handler.go:69-71 | a wrong password with no comparison error crashes as written, and is rejected when corrected |
| AuthHandler.CompareDiffersOnlyOnMismatch | internal/handlers/auth.handler.go:69-77 | the two checks differ exactly on a mismatch reported without error |
| AuthHandler.AuthHandler.LoginWith | internal/handlers/auth.handler.go:36-100 | bind failure gives 400 with no call; a lookup error or an unknown e-mail gives 500 "Something went wrong"; after the comparison, a crash, a 401 or a token for the found user's id and role; then 200 with id and token, or 500 |
| AuthHandler.AuthHandler.LoginAsWritten | internal/handlers/auth.handler.go:36-100 | the handler panics exactly when a known e-mail's password does not match and the comparison reports no error |
| AuthHandler.AuthHandler.Login | internal/handlers/auth.handler.go:36-100 | always answers; success exactly when the caller is authenticated and a token is issued; an unknown e-mail gives 500, a failed authentication 401; a token is requested exactly for an authenticated caller |
| AuthHandler.AuthHandler.Register | internal/handlers/auth.handler.go:114-160 | bind failure gives 400; a hashing failure gives 500 before the store is touched; any creation failure gives 409 and leaves the store unchanged; success gives 201 with one user row holding the hash (not the plaintext) and its profile row |
| MovieHandler.PageOf | internal/handlers/movie.handler.go:31-32 | the page handed to the repository is always an int64 |
| MovieHandler.PageDefaultsToOne | internal/handlers/movie.handler.go:31-32 | a missing `page` is page 1, offset 0 |
| MovieHandler.PageAsWritten | internal/handlers/movie.handler.go:31-32 | a page written as a decimal numeral is that page |
| MovieHandler.MalformedPageIsZero | internal/handlers/movie.handler.go:31-32 | a non-numeric `page` becomes 0, so the offset is `-pageSize` |
| MovieHandler.MalformedPageServesEmpty | internal/repos/movie.repo.go:63-81 | as written, a non-numeric page makes every listing succeed with no rows, whatever the table holds |
| MovieHandler.MalformedPageCachedEmpty | internal/repos/movie.repo.go:83-87 | on a cache miss that empty page is the upcoming answer, and it is cached under page 0 for five minutes |
| MovieHandler.MalformedPageFails | internal/handlers/movie.handler.go:31-32 | with the corrected row loop a non-numeric page makes every listing query fail with the negative-offset error |
| MovieHandler.AbsentFiltersAdmitAll | internal/handlers/movie.handler.go:98-99 | missing `search` and `genre` admit every movie with its full genre list |
| MovieHandler.MovieHandler.GetUpcomingMovies | internal/handlers/movie.handler.go:30-50 | the cache and the answer follow `CacheAside` for the parsed page over the source's loop; success is 200 with the page (so a non-numeric page answers 200 with an empty list, by `MalformedPageCachedEmpty`); a repository error gives 500 |
| MovieHandler.MovieHandler.GetPopularMovies | internal/handlers/movie.handler.go:61-81 | the same for the popular listing |
| MovieHandler.MovieHandler.GetAllMovies | internal/handlers/movie.handler.go:94-117 | the same with the defaulted search and genre |
| MovieHandler.MovieHandler.GetMovieDetail | internal/handlers/movie.handler.go:130-158 | the repository is asked exactly when the id parses; otherwise 400 with the cache untouched; a lookup error gives 404 |

## Left out

- Routing, gin, `ShouldBind`, `ctx.JSON`, CORS and the middleware are left out. A binding failure is an absent body. `gin.Default()` (internal/routers/router.go:16) installs the recovery middleware, so a handler panic is modelled as the `Panicked` outcome.
- The SQL text is not reproduced. Left out with it:
  - the `LIKE` wildcards `%` and `_` in a search (a search is matched as a plain substring);
  - `JSON_AGG DISTINCT`;
  - the soft-delete column, which the queries do not filter;
  - the contents of the genre and cast JSON columns: a decoding failure is an input. The listing loops discard it, and the detail query returns it.
- `NOW()` and `time.Now()` are a parameter `now`. `LOWER` is modelled on ASCII letters only.
- Ties under `ORDER BY` are not specified. The model fixes one order (insertion sort, stable); the properties it states hold for any order.
- Popularity is an integer key. Its Go type is not part of this model.
- A nil slice and an empty slice are not distinguished: an empty page is the empty sequence.
- Redis TTL expiry is not modelled, since there is no clock. A SET whose reply is lost (stored, but reported as failed) is modelled as not stored.
- Concurrency between requests, and seat double-booking, are left out.
- The bodies of the order and admin repositories are not part of this model. Their calls are recorded and their results are inputs.
- These calls are foreign and their results are inputs: password hashing and comparison, JWT issuance, `SaveImage` and logging.
- The UUIDs `uuid.New()` generates are natural numbers given as inputs.
- The admin handlers `CreateMovie`, `GetMovies`, `GetMovieByID` and `DeleteMovie` are outside the modelled core, and so is the schedule `time.Parse` whose error is ignored.
- AuthRepo.AuthRepository.CreateUser: the caller's `user.ID` assignment is returned as `withId` instead of updating the caller's object.
- ProfileHandler.ProfileHandler.UpdateProfile: a failed `SaveImage` is modelled only as the empty path it returns. That path is stored as the avatar (`UploadSetsAvatar`), and the response modelled is the handler's own 200 or 500. The model does not capture that `SaveImage` has already answered the request by then, so that response is a second write to it. The handler does not check for the empty path, unlike `UpdateMovie`.
- AdminHandler.ComposeUpdate: the update map is keyed by a `Column` value. `ColumnName` gives the column's name, and distinct columns have distinct names.
- AdminHandler.ActionDrama: states the equality of the two normalisations, not the literal list `["Action", "Drama"]`.
- MovieRepo.Serve: a negative `OFFSET` is modelled as an error the server reports while the rows are iterated, after `Query` has returned. PostgreSQL rejects it and pgx reports such errors through `rows.Err()`. The exact error text is not modelled.

## Findings

| source | as written | input that shows it | evidently intended | confidence | as-written member | corrected member |
|---|---|---|---|---|---|---|
| internal/repos/movie.repo.go:63-81 (and 127-145, 197-215); internal/handlers/movie.handler.go:32 | The `for rows.Next()` loop never checks `rows.Err()`. An error that ends the row stream is dropped, and the rows collected so far (none) are returned as a successful page, written to the cache for five minutes and answered with 200. | `GET` upcoming movies with `page=abc`: `Atoi` gives 0, the offset is -4, and the server rejects the negative `OFFSET` | the query error is returned, nothing is cached, and the handler answers 500 | not executed | MovieRepo.CollectRowsAsWritten (with MovieHandler.MalformedPageCachedEmpty) | MovieRepo.CollectRows (with MovieRepo.FetchedCorrected) |
| internal/handlers/auth.handler.go:69-71 | When the comparison reports a mismatch without an error, `log.Println(err.Error())` calls a method on a nil error. The handler panics, and the recovery middleware answers a bare 500 instead of 401. | `Login` with a registered e-mail and a wrong password (`valid == false`, `err == nil`) | 401 "Invalid Email or Password" | not executed | AuthHandler.AuthHandler.LoginAsWritten (with AuthHandler.WrongPasswordCrashes) | AuthHandler.AuthHandler.Login |
