# Link shortener core, modelled in Dafny

This project models the link-management core of a FastAPI URL shortener. The core is a
table of link records, each keyed by a unique short code (the `short_url` column). Five
handlers work on that table:

- create a link under a custom alias or a generated code;
- delete a link, checking ownership;
- redirect through a link, counting the click unless the link has expired;
- search links by a case-insensitive prefix of their long URL;
- update a link's long URL, alias or expiry, checking ownership.

A stats lookup reads the table under its own authorization rule.

The table is a `map<Code, Link>` held by the class `Links.LinkStore`. Create, delete,
redirect and update are methods of that class. Their contracts give the whole new table and
the answer, including every error case. For each error they also say that the table is
unchanged, which is what the session's missing commit (or failed commit) achieves in the
source. The store invariant `Valid` keeps every row under its own `short_url`. It also
keeps the row within the column types: `String(20)` for the code and a 32-bit `Integer` for
the click counter.

The parts that only compute are functions with lemmas beside them: the alias rule, the code
generator's specification, URL normalisation, search and stats. The code generator itself
is a method with a loop. Outside inputs are parameters:

- the clock is `now`;
- the caller is an optional user id (`None` for an anonymous request);
- the request's base URL is `baseUrl`;
- `uuid4()` is replaced by a sequence `draws` of 32-digit lowercase hex strings, in draw order.

Modules, one per source file or component: `Outcomes` (option, result and the error
taxonomy), `Models` (`app/models.py`), `Schemas` (`app/service/schemas.py`), `CodeGen`
(`app/service/src.py`), `Urls` and `Search` (the pure part of `app/service/links.py`), `Links`
(the stateful part of `app/service/links.py`), `Stats` (`app/service/stats.py`), and
`Scenarios`, client methods that derive the outcomes of operation sequences from the
contracts alone.

Behaviour of the code a reader may not expect:

- Codes are `uuid4().hex[:length]`: lowercase hex, 6 characters by default. The generator's
  loop re-rolls with no retry bound.
- `updated_at` is not refreshed to the time of each mutation. Its `onupdate=datetime.now()`
  is evaluated once, when `app/models.py` is imported. So every UPDATE of a row writes that
  same frozen moment (`LinkStore.onUpdateStamp`). This happens on every redirect, and on an
  update only when some value actually changes.
- Update refuses an alias that is the short code of ANY link, the updated link included. It
  cannot clear an expiry: an absent expiry means "keep".
- There is no retry of a create that loses a race on the unique index.
- The stats endpoint refuses every owned link (see Findings).

Several names in the source do not match the columns or schemas they refer to. The model
uses the evident intent in each case:

- Update filters on `short_code` and checks `custom_alias`, and the generator filters on
  `short_code`. None of these is a column of `Link`; the model uses `short_url`.
- Create reads `payload.original_url`, but the schema field is `long_url`.
- Create calls `request.base_url.rstrip('/')`; the model uses the string form of the base
  URL, as search does.
- `LinkInfo` declares `long_url` and `is_active`, but the handlers fill `original_url`.
  The model's view carries the short URL, the original URL and the expiry, as the handlers
  build it.

## Model

| member | source | states |
|---|---|---|
| Models.NewLink | app/models.py:29-36 | A new row has both timestamps equal to the creation time, the caller as owner, `click_count = 0`, `is_active = true` and no `last_used_at`; it fits the table iff its code has at most 20 characters |
| Models.ShortUrlUnique | app/models.py:28 | In a well-keyed table two rows share a `short_url` only if they are the same row |
| Models.InsertKeepsKeyed | app/models.py:28 | Inserting a storable row under an unused code keeps the table well keyed and adds exactly one row |
| Schemas.PatternMeansCharset | app/service/schemas.py:21 | The pattern `^[a-zA-Z0-9_-]+$` matches exactly the non-empty strings over that class |
| Schemas.ValidAliasIff | app/service/schemas.py:21 | A custom alias is accepted iff it is non-empty, at most 30 characters long and made of `[a-zA-Z0-9_-]` |
| Schemas.AliasLongerThanColumn | app/service/schemas.py:21 | Some accepted alias is longer than the 20 characters the `short_url` column holds |
| Schemas.CreateDefaults | app/service/schemas.py:19-22 | A create body with only a long URL has no alias and no expiry, and it is accepted |
| Schemas.UpdateDefaults | app/service/schemas.py:34-37 | The empty update body has all three fields absent, and it is accepted |
| Schemas.SameAliasRule | app/service/schemas.py:36 | The update schema accepts an alias iff the create schema does |
| CodeGen.Take | app/service/src.py:9 | Python's `s[:n]` is a prefix of `s`: the whole string when `n` reaches past its end, the first `n` characters for `0 <= n`, and for negative `n` all but the last `-n` characters (nothing when `-n` exceeds the length) |
| CodeGen.FirstFreeDraw | app/service/src.py:8-11 | Picks the first draw whose truncation is not a stored code; every earlier draw's truncation is taken |
| CodeGen.GenerateUniqueShortCode | app/service/src.py:6-11 | Returns the truncation of the first free draw, which is not in the store, or nothing when every draw collides; the store is only read; the code has the sliced length and only lowercase hex digits |
| CodeGen.DefaultCodeShape | app/service/src.py:6-9 | With the default length a code is exactly six lowercase hex digits |
| Urls.RStripSlashes | app/service/links.py:109 | `rstrip("/")` gives a prefix with no trailing slash; only slashes were removed |
| Urls.Lower | app/service/links.py:109 | Lowercasing keeps the length, leaves no upper-case letter, and keeps every character that is not an upper-case letter |
| Urls.LowerIdempotent | app/service/links.py:109 | Lowercasing twice is lowercasing once |
| Urls.RStripLowerCommute | app/service/links.py:109 | Stripping trailing slashes and lowercasing commute |
| Urls.ShortUrlForShape | app/service/links.py:48 | The short URL is the base URL without trailing slashes, one `/`, then the code |
| Urls.ShortUrlForInjective | app/service/links.py:118-122 | Distinct codes under one base give distinct short URLs |
| Search.Normalize | app/service/links.py:109 | The normalised query is no longer than the input and has no trailing slash |
| Search.SearchLinks | app/service/links.py:109-127 | Answers exactly the links whose lowercased long URL starts with the normalised query, each with its full short URL, URL and expiry; it answers `NotFound` iff no link matches |
| Search.NormalizeIdempotent | app/service/links.py:109 | Normalising twice is normalising once |
| Search.NormalizeIgnoresTrailingSlash | app/service/links.py:109 | A trailing slash on the query does not change its normal form |
| Search.SearchByNormalForm | app/service/links.py:109-113 | Searching by the normal form of a query answers as the query does |
| Search.SearchIgnoresCase | app/service/links.py:109-113 | A query and its lowercased form get the same answer, so queries differing only in letter case answer alike |
| Search.SearchIgnoresTrailingSlash | app/service/links.py:109-113 | Appending a slash to the query does not change the answer |
| Search.MixedCaseMatch | app/service/links.py:109-113 | The query `https://example.com` finds a stored `https://Example.com/a` |
| Links.CheckOwner | app/service/links.py:69-73 | Delete and update pass the ownership checks iff the link has an owner and the caller is that owner; an anonymous link is refused to every caller |
| Links.ChooseCode | app/service/links.py:26-31 | A truthy alias is used if free and refused with `AliasInUse` if taken; otherwise the code is the six-character truncation of the first draw whose truncation is free, six hex digits, or `NoFreeCode` when there is none; a chosen code is never in the store |
| Links.Patched | app/service/links.py:148-159 | An update sets each field the patch carries (long URL, truthy alias as `shortUrl`, expiry) and keeps each absent one, so it never clears an expiry; it leaves clicks, owner and creation time alone, changes nothing on an empty patch, and stamps `updated_at` exactly when a value changed |
| Links.LinkStore.constructor | app/models.py:30 | An empty table whose on-update timestamp is the import time |
| Links.LinkStore.Create | app/service/links.py:19-54 | A rejected body, a taken alias, exhausted draws or a code too long for the column all fail and leave the table unchanged; on success exactly one row is added under the chosen code, owned by the caller or by no one, stamped `now`, and no other row changes; the answer carries the base URL, `/` and the code |
| Links.LinkStore.Delete | app/service/links.py:57-76 | Missing code gives `NotFound`; an anonymous link, a missing caller or a non-owner gives a 403 error; in all these cases nothing changes; the owner's delete removes exactly that row |
| Links.LinkStore.Redirect | app/service/links.py:84-100 | Missing code gives `NotFound` and an expiry before `now` gives `Expired`, both leaving the table unchanged; otherwise the click count rises by exactly one, `last_used_at` becomes `now`, the long URL is answered and no other row changes |
| Links.LinkStore.Update | app/service/links.py:130-168 | The same not-found and ownership errors as delete, and `AliasInUse` for a taken alias, and `DataError` for a free alias too long for the column, all with nothing committed; on success the row is replaced by its patched form under its possibly new code, and the answer carries the bare code |
| Stats.GetLinkStats | app/service/stats.py:12-25 | As written: a missing code gives `NotFound`, an anonymous link's record is returned, every owned link is refused |
| Stats.GetLinkStatsIntended | app/service/stats.py:22-23 | With the caller threaded through, a record is returned iff the link exists and is anonymous or owned by the caller |
| Stats.OwnerLockedOut | app/service/stats.py:22-23 | As written the owner of a link is refused its statistics; the intended rule shows them |
| Stats.AgreeOnAnonymous | app/service/stats.py:17-25 | On missing codes and anonymous links both rules answer alike, whoever asks |
| Scenarios.AliasTakenTwice | app/service/links.py:26-28 | Creating under a free alias succeeds with a short URL ending in `/abc`; a second create with the same alias fails with `AliasInUse` |
| Scenarios.ExpiredRedirect | app/service/links.py:93-94 | A link that expired an hour ago answers `Expired`, not `NotFound`, and keeps its click count |
| Scenarios.TwoClicks | app/service/links.py:96-98 | Two redirects raise the click count by exactly two |
| Scenarios.CreateThenDelete | app/service/links.py:64-76 | Neither an anonymous caller nor another user can delete an owner's new link; the owner's delete restores the table exactly |
| Scenarios.EmptyUpdate | app/service/links.py:142-161 | An empty update changes nothing; on an anonymous link it is refused |

## Left out

- HTTP status codes and response serialisation are replaced by the `Error` values. This
  leaves out the response-schema faults noted above. It also leaves out that `LinkStats`
  requires an expiry, so the stats of a link without one would fail to serialise.
- Timezones are not modelled. Create stamps a timezone-aware UTC time, while redirect
  compares with a naive local time. The model uses one integer clock.
- `HttpUrl` validation and normalisation are not modelled; URLs are opaque strings.
- Lowercasing covers ASCII letters only; Python and PostgreSQL lowercase all of Unicode.
- `LIKE` treats `%` and `_` in the query as wildcards, and the backslash as PostgreSQL's default
  escape character (the query `a\b` matches long URLs starting `ab`). The model matches the
  query as a literal prefix, so a query holding those characters answers differently in the
  source.
- The order of search results is the database's; the model answers a map from code to view.
- The generator's `while True` loop may draw forever. The model consumes a finite list of
  draws and answers `NoFreeCode` when every one collides.
- Concurrency, transaction isolation and races on the unique index are not modelled. Each
  operation runs alone.
- The `id` primary key, the `user` relationship and the User table are left out; the core
  never reads them. `is_active` is stored and returned by the stats lookup, but redirect does not consult it,
  and neither does the model.
- Authentication is left out: the JWT backend and the user manager become the optional caller
  id. The application wiring, session construction, configuration and the Redis cache are
  not modelled.
- The route and parameter mismatches are left out. The redirect and stats routes name
  `{short_code}` but read a `short_url` argument, and `/search` is declared after the
  catch-all `/{short_code}` route.

## Findings

| source | as written | input that shows it | evidently intended | confidence | as-written member | corrected member |
|---|---|---|---|---|---|---|
| app/service/stats.py:22-23 | compares `link.user_id` with `current_user` imported from `sqlalchemy.sql.functions`, a class that is always truthy and never equals a user id | any link with `user_id = U`, requested by the user `U` | the owner (or anyone, for an anonymous link) may read the stats | high (not executed) | Stats.GetLinkStats (with Stats.OwnerLockedOut) | Stats.GetLinkStatsIntended |
