# URL shortener core, modelled in Dafny

This project models the core of a small Java URL shortener:

- the **service** (`UrlShortenerService`) shortens a long URL to `http://localhost:8080/<token>`, resolves a token through a read-through cache, deletes a token and counts redirects;
- the **data-access layer** (`UrlShortenerDAL`) works over three SQL tables:
  - `original_urls` (id → long_url, long_url unique, AUTOINCREMENT ids);
  - `tokens` (token → original_url_id, token the primary key);
  - `redirect_analytics` (url → count, assuming the url is the table's key);
- the **cache** is reduced to the entries it currently holds, which may be evicted at any time;
- the two **token generators** are `TokenGenerator` (six random hex digits) and `ShortCodeGenerator` (a hyphen-stripped UUID prefix).

Files:

- `wrappers.dfy`: `Option` for Java's null, `Result`/`Outcome` for thrown exceptions.
- `hex_digits.dfy`: `Integer.toHexString` on [0, 16) and its inverse.
- `token_generator.dfy`: `generateToken` as a method with a `for` loop. The six `nextInt(16)` draws are its input. The spec function `TokenOf` has a decoding partner `DrawsOf`.
- `short_code_generator.dfy`: `generateShortCode` as pure functions. The UUID string is the input.
- `url_store.dfy`: class `UrlShortenerDAL`. Its map fields are the tables, and each method is one statement or transaction on them. A key-constraint violation leaves the tables unchanged and yields `DataAccessError`, with the message the DAL passes to `handleSQLException`.
- `read_cache.dfy`: class `OriginalUrlCache` (`getIfPresent`, `put`, eviction).
- `url_service.dfy`: class `UrlShortenerService`, plus three client methods. The first proves idempotent re-shortening; the second replays shorten → resolve → delete → resolve; the third shows a re-issued token being served the old, cached URL.

Two invariants are kept apart:

- `Valid()` is what the table constraints guarantee (fresh ids, unique long_url), and counts of at least 1, which is all the DAL ever writes.
- `Consistent()` is the state the service keeps: every mapping points at a live URL row, and each URL row has at most one token.

The DAL alone can break `Consistent()`, for two reasons. The foreign key on `tokens.original_url_id` is declared but SQLite does not enforce it (the DAL never turns it on), so a token can point at a missing URL row; that is also why the rollback branch of `deleteShortUrl` is reachable in the model. And "at most one token per URL row" is no table constraint at all: `insertUrlMapping` adds a second token for an id that already has one. Only the service's branching keeps it.

Behaviour of the code worth knowing:

- The cache is never invalidated. After a successful delete, the service keeps serving a cached URL until the entry is evicted (`ShortenResolveDelete`). If the generator later hands out the same token for another URL, the store resolves it to the new URL, but the service still answers with the old, cached one (`ReissuedTokenServesCachedUrl`).
- `getOriginalUrl` never increments the redirect counter. Failures of `incrementRedirectCount` propagate through `handleSQLException` like every other store failure (SQL failures themselves are left out of the model).
- There is no recovery from a lost URL-insert race. A failing `insertUrlMapping` after `insertOriginalUrl` leaves the new URL row without a token. `ShortenUrl` states this, and a later shorten of that URL takes the "known URL without a token" branch.
- The comment in `TokenGenerator.generateToken` calls the range "inclusive", but `nextInt(16)` yields 0..15. The model uses [0, 16).

## Model

| member | source | states |
|---|---|---|
| HexDigits.HexDigit | src/main/java/com/rushtech/urlshortener/util/TokenGenerator.java:17 | `Integer.toHexString` of a draw in [0,16) is one lower-case hex digit, and a decimal digit exactly when the draw is below 10 |
| HexDigits.HexDigitInjective | src/main/java/com/rushtech/urlshortener/util/TokenGenerator.java:16-17 | two draws give the same digit if and only if they are equal |
| TokenGenerator.TokenOf | src/main/java/com/rushtech/urlshortener/util/TokenGenerator.java:14-19 | the token spelled by a draw sequence has one character per draw |
| TokenGenerator.TokenOfAt | src/main/java/com/rushtech/urlshortener/util/TokenGenerator.java:15-17 | character k of the token is the hex digit of draw k, so draw order is preserved |
| TokenGenerator.TokenOfIsLowerHex | src/main/java/com/rushtech/urlshortener/util/TokenGenerator.java:16-17 | every character of a token is in 0-9a-f |
| TokenGenerator.DrawsOfTokenOf | src/main/java/com/rushtech/urlshortener/util/TokenGenerator.java:14-19 | decoding a token gives back exactly the draws it was built from |
| TokenGenerator.TokenOfInjective | src/test/java/com/rushtech/urlshortener/util/TokenGeneratorTest.java:27-34 | two draw sequences give the same token if and only if they are equal (the deterministic form of "different codes") |
| TokenGenerator.GenerateToken | src/main/java/com/rushtech/urlshortener/util/TokenGenerator.java:13-20 | the loop builds a 6-character token whose character i is the digit of draw i, all lower-case hex, equal to `TokenOf(draws)` |
| ShortCodeGenerator.StripHyphens | src/main/java/com/rushtech/urlshortener/util/ShortCodeGenerator.java:11 | the result of `replaceAll("-", "")` holds no '-' and is no longer than its input |
| ShortCodeGenerator.StripHyphensNoHyphen | src/main/java/com/rushtech/urlshortener/util/ShortCodeGenerator.java:11 | a string without '-' is left unchanged |
| ShortCodeGenerator.StripHyphensAppend | src/main/java/com/rushtech/urlshortener/util/ShortCodeGenerator.java:11 | hyphen removal distributes over concatenation, so order is kept |
| ShortCodeGenerator.StripHyphensKeepsOthers | src/main/java/com/rushtech/urlshortener/util/ShortCodeGenerator.java:11 | every character other than '-' occurs as often in the result as in the input |
| ShortCodeGenerator.GenerateShortCode | src/main/java/com/rushtech/urlshortener/util/ShortCodeGenerator.java:9-13 | it succeeds if and only if the stripped string has at least 6 characters, and then returns 6 characters, none of them '-', that are a prefix of the stripped string; otherwise it fails as `substring` does |
| ShortCodeGenerator.CanonicalUuidShortCode | src/main/java/com/rushtech/urlshortener/util/ShortCodeGenerator.java:10-12 | for a canonical UUID string the code never fails and is the UUID's first six characters, all hex |
| Dal.UrlShortenerDAL.constructor | src/test/java/com/rushtech/urlshortener/dal/UrlShortenerDALIntegrationTest.java:35-42 | freshly created tables are empty, the first id AUTOINCREMENT hands out is 1 (src/test/java/com/rushtech/urlshortener/dal/UrlShortenerDALIntegrationTest.java:92-93), and both `Valid` and `Consistent` hold |
| Dal.UrlShortenerDAL.GetOriginalUrl | src/main/java/com/rushtech/urlshortener/dal/UrlShortenerDAL.java:30-59 | the join returns the long_url of the row the token points at, and null for an unknown token or a dangling id |
| Dal.UrlShortenerDAL.GetOriginalUrlId | src/main/java/com/rushtech/urlshortener/dal/UrlShortenerDAL.java:62-75 | it returns -1 if and only if no row holds the URL; otherwise it returns the id of the one row that does |
| Dal.UrlShortenerDAL.GetTokenForOriginalUrl | src/main/java/com/rushtech/urlshortener/dal/UrlShortenerDAL.java:133-146 | it returns null if and only if no token maps to the id; otherwise a token mapping to it, which is the only one when `Consistent` holds |
| Dal.UrlShortenerDAL.InsertOriginalUrl | src/main/java/com/rushtech/urlshortener/dal/UrlShortenerDAL.java:92-116 | a new URL gets exactly one row with a fresh id, and `getOriginalUrlId` then returns that id; a duplicate fails the UNIQUE check and leaves the table unchanged |
| Dal.UrlShortenerDAL.InsertUrlMapping | src/main/java/com/rushtech/urlshortener/dal/UrlShortenerDAL.java:119-130 | it adds (token, id), after which the token resolves to that id's URL; a token already present fails the primary key and leaves the table unchanged |
| Dal.UrlShortenerDAL.UpdateToken | src/main/java/com/rushtech/urlshortener/dal/UrlShortenerDAL.java:77-89 | it renames the id's single token row; zero matching rows changes nothing; two rows, or a clash with another token, fails and changes nothing |
| Dal.UrlShortenerDAL.DeleteShortUrl | src/main/java/com/rushtech/urlshortener/dal/UrlShortenerDAL.java:149-208 | it returns true if and only if the token resolved, and then removes both the mapping and its URL row; otherwise both tables are as before. Afterwards the token does not resolve and the URL is unknown. It keeps `Consistent`, under which it succeeds exactly for known tokens |
| Dal.UrlShortenerDAL.IncrementRedirectCount | src/main/java/com/rushtech/urlshortener/dal/UrlShortenerDAL.java:211-223 | the URL's count becomes its previous value (0 if absent) plus one; every other URL's count is unchanged |
| Cache.OriginalUrlCache.constructor | src/main/java/com/rushtech/urlshortener/util/CacheManager.java:12-15 | a new cache holds no entries |
| Cache.OriginalUrlCache.GetIfPresent | src/main/java/com/rushtech/urlshortener/service/UrlShortenerService.java:24 | a hit returns the cached value; a miss returns null |
| Cache.OriginalUrlCache.Put | src/main/java/com/rushtech/urlshortener/service/UrlShortenerService.java:30 | the token now maps to the URL; other entries are untouched |
| Cache.OriginalUrlCache.Evict | src/main/java/com/rushtech/urlshortener/util/CacheManager.java:11-16 | size- or time-based eviction only removes entries and never changes a surviving one |
| Service.ShortUrl | src/main/java/com/rushtech/urlshortener/service/UrlShortenerService.java:57 | a short URL is `BASE_URL` followed by the token, and the token can be read back after the prefix |
| Service.ShortUrlInjective | src/main/java/com/rushtech/urlshortener/service/UrlShortenerService.java:9 | two tokens give the same short URL if and only if they are equal |
| Service.UrlShortenerService.constructor | src/main/java/com/rushtech/urlshortener/service/UrlShortenerService.java:15-19 | the service holds the given store and cache |
| Service.UrlShortenerService.GetOriginalUrl | src/main/java/com/rushtech/urlshortener/service/UrlShortenerService.java:21-34 | a cache hit is returned with nothing changed; on a miss the store's answer is returned and cached only when non-null. With a coherent cache the answer equals the store's, and coherence is kept |
| Service.UrlShortenerService.ShortenUrl | src/main/java/com/rushtech/urlshortener/service/UrlShortenerService.java:36-58 | in each of the three branches it changes exactly the rows named here and returns `BASE_URL + token`, and the token then resolves to the URL. A URL with a token keeps it, draws no token and changes nothing. Existing resolutions never change, and `Consistent` is kept |
| Service.UrlShortenerService.DeleteShortUrl | src/main/java/com/rushtech/urlshortener/service/UrlShortenerService.java:60-63 | it returns the store's transactional result and leaves the cache untouched |
| Service.UrlShortenerService.IncrementRedirectCount | src/main/java/com/rushtech/urlshortener/service/UrlShortenerService.java:65-68 | it delegates: one more redirect for that URL, every other count unchanged, and the URL and token tables, the id counter and the cache untouched |
| Service.ShortenTwice | src/test/java/com/rushtech/urlshortener/service/UrlShortenerServiceTest.java:108-128 | from a `Consistent` store, two shortenings of one URL with no delete in between return the same short URL; `Consistent` makes the pick of `getTokenForOriginalUrl` repeatable, and every state the service reaches from empty tables satisfies it |
| Service.ShortenResolveDelete | src/main/java/com/rushtech/urlshortener/service/UrlShortenerService.java:22-63 | after shorten and resolve, the first delete succeeds and a second fails. The service still returns the cached URL unless its entry was evicted first, in which case it returns null |
| Service.ReissuedTokenServesCachedUrl | src/main/java/com/rushtech/urlshortener/service/UrlShortenerService.java:22-63 | when a deleted token is handed out again for another URL, the store resolves it to the new URL while the service returns the old, cached one |

## Left out

- The schema of `redirect_analytics` is not declared anywhere in the source. The model assumes `original_url` is its primary key, so that `INSERT OR REPLACE` updates the URL's one row; without such a key every call would add a new row.
- Connection handling is not modelled: the HikariCP pool and its configuration, connection timeouts, isolation levels, auto-commit resets and closing connections. The same goes for SQL failures other than key-constraint violations, and for logging.
- The `expiration_date` column is left out. It is computed from `LocalDateTime.now()` and is never read.
- Ids are unbounded integers. The source's 64-bit `long` and SQLite's AUTOINCREMENT limit are not modelled.
- Two `return -1` paths are not modelled: `getOriginalUrlId` after a caught exception, and `insertOriginalUrl` after an exception. `handleSQLException` always throws, so neither is reached.
- `SecureRandom` and `UUID.randomUUID()` are not modelled. Their draws, or the UUID string, are inputs. The "called twice gives different codes" tests are probabilistic and are replaced by `TokenOfInjective`.
- `ITokenGenerator` is an oracle: `ShortenUrl` receives the token it would return.
- Concurrency is not modelled: concurrent shortens of one URL, thread safety of the cache, and statement interleaving.
- Caffeine's eviction policy (`maximumSize`, `expireAfterWrite`) is represented only by `Evict`. A caller may invoke it between any two operations, but not inside a `put`.
- The HTTP controller (Javalin routing, `UrlValidator`), `Application` wiring and configuration, and `CacheManager`'s static holder are not part of this model.
- `UrlShortenerDataAccessException`, the response DTOs and the two interfaces carry no logic. They are represented only by `DataAccessError`, plain strings and the classes themselves.
- Java strings are sequences of UTF-16 code units. The model uses `seq<char>`, and `replaceAll("-", "")` is modelled as removing the literal character '-'.
