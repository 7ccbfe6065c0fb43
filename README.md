# SurveyMonkey proxy — a verified model of its request core

The proxy is an HTTP service that sits between a synchronisation pipeline and
the SurveyMonkey API:

- A `GET /<path>` request is answered with a JSON array of every entity of
  that endpoint.
- The proxy fetches the entities for every configured access token in turn
  and follows the API's pagination.
- It obeys the API's rate-limit headers. It has a process-wide *request
  rejection* window and a *delayed response* sleep.
- Before writing an entity it stamps `_id` and `_updated` on it, and carries
  a `latest_date_modified` watermark across the request.
- The path `minimalreportingdata` is a composite flow. It pages through the
  surveys, skips the blacklisted ones, and for each remaining survey fetches
  its `/details`, `/collectors` and `/responses/bulk` sub-resources.
- A `POST /transform/<path>` request first fills the `{{field}}`
  placeholders of the path from the posted entity: the first element of
  the posted JSON array.

The model is one Dafny module per concern:

| module | file | models |
|---|---|---|
| `Common` | common.dfy | options, argument values, error kinds |
| `Text` | text.dfy | Python string ordering, `replace`, `split`/`join` |
| `RateLimit` | rate_limit.dfy | the thresholds, the post-check as a function, and the `Governor` class holding the rejection expiry (the module-level global) |
| `RequestArgs` | request_args.dfy | `get_args`: the split of request arguments into service and API arguments; `ArgDict` and `ServiceArgs` are the mutable dictionaries |
| `Normaliser` | normaliser.dfy | `sesamify`, `remove_tz_offset` and the watermark |
| `Paginator` | paginator.dfy | `do_read_from_data_field`, one page, and `generate_entities` as a loop proved against the function `Paginate` |
| `Transform` | transform.dfy | placeholder discovery and substitution of the transform route |
| `Proxy` | proxy.dfy | the blacklist setting, the output stream (`Sink`), the simple and composite flows of `fetch_data`, `get_data` and the transform route |

How external things are represented:

- The upstream API is a function parameter `up` from credential, URL and
  arguments to a `Response`. The response carries the clock reading at which
  its post-check runs.
- `json.dumps` is the parameter `encode` and `str(err)` is the parameter
  `errText`.
- Response headers are a map from name to integer. The rate-limit header
  values are taken to be integers already, so the ValueError that `int(...)`
  raises on a non-numeric value (service/proxy-service.py:87-93), which the
  post-check does not catch, is not modelled.
- The mutating Python code (the global rejection expiry, the `api_args`
  dictionary advanced with `page`, the `latest_date_modified` entry of the
  service arguments, and the list of output chunks) is modelled by classes
  whose methods are proved against specification functions.

Facts about the code that the model keeps:

- The code has no `_account_keys` selection of credentials. Every configured
  token is used, in order.
- The code reads `PER_PAGE` but never sends it upstream.
- Blacklist membership is exact equality of survey ids.
- `limit` and the other service parameters are removed from the upstream
  arguments.

## Model

| member | source | states |
|---|---|---|
| Proxy.ParseBlacklist | service/proxy-service.py:31-33 | an unset or empty setting gives no ids; otherwise the ids, joined back with commas, are the setting with spaces removed, and no id holds a space or a comma |
| Text.JoinSplit | service/proxy-service.py:32-33 | splitting on a separator and joining back gives the string again |
| Text.SplitJoin | service/proxy-service.py:32-33 | splitting the join of separator-free fields gives those fields back |
| Text.RemoveChar | service/proxy-service.py:32 | the result holds no occurrence of the removed character, draws only on the string's characters and keeps every other one; a string without that character is unchanged |
| Text.RemoveCharAppend | service/proxy-service.py:32 | removal distributes over concatenation, so with the one-character case the kept characters stay in order and in number |
| Text.Split | service/proxy-service.py:33 | the split has at least one field and no field holds the separator |
| Proxy.SplitFieldsFromString | service/proxy-service.py:33 | every character of a split field occurs in the split string |
| RateLimit.Governor.PreCheck | service/proxy-service.py:62-73 | an unexpired window rejects with an error carrying its expiry and stays; an expired one is cleared and the call proceeds; no window proceeds |
| RateLimit.TruncDiv | service/proxy-service.py:109 | `int(a / b)` truncates toward zero: equal to Euclidean division for non-negative operands, negative exactly when the signs differ and the magnitude allows, and of magnitude the floor of `abs(a) / abs(b)` |
| RateLimit.PostCheckStopsOnExhausted429 | service/proxy-service.py:86-97 | a 429 with no minute requests left opens the rejection window for the minute reset and stops the iteration, before the day period is read |
| RateLimit.PostCheckWithoutMinuteLimit | service/proxy-service.py:85-112 | a missing limit header is a swallowed KeyError: nothing changes and the fetch goes on |
| RateLimit.PostCheckWithoutMinuteRemaining | service/proxy-service.py:89-91 | a missing remaining header makes `int(None)` raise a TypeError that escapes the post-check |
| RateLimit.PeriodWithDefaultThresholds | service/proxy-service.py:99-110 | with the default thresholds, a ratio above 0.3 does nothing, one in (0.1, 0.3] sleeps reset/remaining seconds, one at most 0.1 opens the window and also sleeps, and zero remaining opens the window and then divides by zero |
| RateLimit.PeriodWithZeroLimit | service/proxy-service.py:100 | a zero limit raises ZeroDivisionError before any policy applies |
| RateLimit.Governor.PostCheckResponse | service/proxy-service.py:76-112 | the new rejection expiry, the sleeps and the signal are those of the post-check function on the old expiry, and a response is never skipped |
| Text.LessTransitive | service/proxy-service.py:124 | Python's string ordering is transitive |
| Text.LessTotal | service/proxy-service.py:124 | Python's string ordering is total |
| Text.Max | service/proxy-service.py:124-130 | the later of two timestamps is one of them and no earlier than either |
| Normaliser.RemoveTzOffsetAsWritten | service/proxy-service.py:116-117 | the code as written: whenever the `\+\d\d:\d\d$` search succeeds the last six characters are cut and the rest kept; otherwise the value is unchanged |
| Normaliser.TrailingNewlineKeepsPlus | service/proxy-service.py:117 | a value ending in an offset and a newline does not end in an offset, yet the code as written cuts it to a dangling `+` |
| Normaliser.RemoveTzOffset | service/proxy-service.py:116-117 | exactly a final `+DD:DD` is dropped and the rest kept; any other value is unchanged |
| Normaliser.OffsetRemovalsAgreeWithoutNewline | service/proxy-service.py:116-117 | on values not ending in a newline, the corrected removal agrees with the code as written |
| Normaliser.Sesamify | service/proxy-service.py:115-131 | `_id` is the stringified id source field, or is kept as it was without one; `_updated` comes from the updated source, or else from the later of the watermark and `date_modified` with the watermark advanced; undated entities keep the watermark; no other field changes |
| Normaliser.SesamifyEntity | service/proxy-service.py:115-131 | the method updates the entity and the service arguments' watermark exactly as `Sesamify` says |
| Normaliser.NormaliseAllAppend | service/proxy-service.py:183-198 | normalising a concatenation is normalising the first part, then the second from the watermark the first left |
| Normaliser.WatermarkOffsetFree | service/proxy-service.py:124-130 | if neither the starting watermark nor any date ends in an offset, neither does the running maximum |
| Normaliser.WatermarkIsRunningMax | service/proxy-service.py:124-130 | without an `_updated` source and with offset-free dates, the final watermark is the running maximum of the dates, and each dated entity is stamped with the maximum up to and including itself |
| Normaliser.WatermarkMonotone | service/proxy-service.py:124-130 | the running maximum of the dates never decreases along the entities |
| Normaliser.UpdatedNonDecreasing | service/proxy-service.py:124-130 | without an `_updated` source and with offset-free dates, the `_updated` stamps of dated entities never decrease along the output, and each is at least the entity's own date |
| Paginator.SubstituteIds | service/proxy-service.py:136 | `re.sub(r'/\d+', '/{id}', ...)` keeps the first character and empties only the empty string |
| Paginator.SubstituteIdsLeavesNoNumericSegment | service/proxy-service.py:136 | after the substitution no slash is followed by a digit |
| Paginator.SubstituteIdsIdempotent | service/proxy-service.py:136 | substituting twice is substituting once |
| Paginator.SubstituteIdsId | service/proxy-service.py:136 | a slash followed by a whole run of digits becomes `/{id}`, and substitution goes on after the run |
| Paginator.SurveyEndpoint | service/proxy-service.py:136 | a survey sub-resource path `surveys/<digits>/<path>` without numeric segments becomes `surveys/{id}/<path>` |
| Paginator.SurveyResourceEndpoint | service/proxy-service.py:136 | with the base URL removed, a survey sub-resource URL names that endpoint |
| Paginator.SurveyDetailsWhole | service/proxy-service.py:135-137 | a survey's `/details` is not a listed endpoint, so its whole body is one entity |
| Paginator.SurveyListingFromData | service/proxy-service.py:135-137 | a survey's `/collectors` and its `/responses/bulk` are read from the `data` member |
| Paginator.Page | service/proxy-service.py:142-156 | one response: the post-check's expiry and sleeps; Stop ends the fetch and a raise fails with its error; a non-200 status yields no entities and fails with the upstream `error` payload; entities come from `data` or are the whole body, a missing `data` or `page` being a TypeError; another page follows exactly when paging is on and a `next` link exists, at the reported page plus one |
| Paginator.PaginateWhileRejecting | service/proxy-service.py:140 | while a rejection window is open no call is made |
| Paginator.PaginateWithoutPaging | service/proxy-service.py:152-156 | with paging off exactly one call is made |
| Paginator.PaginateFollowsReportedPage | service/proxy-service.py:140-156 | the calls start from the caller's arguments with no window open and number at most the page budget; each further call follows a 200 answer whose post-check left no rejection window and neither stopped nor raised, and asks for the page after the one reported |
| Paginator.FetchPage | service/proxy-service.py:142-156 | one call and its post-check leave the governor, the entities, the status and the arguments as `Page` says, with `page` advanced only when another page follows |
| Paginator.Drain | service/proxy-service.py:140-156 | the loop's sleeps, entities, calls, outcome, final arguments and expiry are exactly those of `PaginateWith`, the whole fetch as a function |
| Paginator.GenerateEntities | service/proxy-service.py:134-156 | `generate_entities` delivers exactly `Paginate` of the URL from the old arguments and expiry, reading `data` exactly for the listed endpoints |
| Transform.CloseAt | service/proxy-service.py:267 | a close found is a `}}` at or after the start |
| Transform.CloseAtFirst | service/proxy-service.py:267 | the lazy match closes at the first `}}` and has no newline before it; when there is no close, every later `}}` has a newline before it |
| Transform.FindTokens | service/proxy-service.py:267 | every match of `{{.*?}}` is a placeholder token |
| Transform.FindTokensFirst | service/proxy-service.py:267 | the scan starts at the leftmost `{{` that closes: the text up to its first `}}` is the first match and the scan resumes after it, so matches never overlap |
| Transform.FindTokensEmpty | service/proxy-service.py:267 | there are no matches exactly when no `{{` opens a token anywhere |
| Transform.NoOpeningNoTokens | service/proxy-service.py:267 | a path without `{{` has no placeholders |
| Transform.SubstituteTokensFails | service/proxy-service.py:267-269 | substitution fails exactly when some placeholder names a missing field, and then it names the first such field |
| Transform.SubstituteOnePlaceholder | service/proxy-service.py:267-269 | in a path with one placeholder and no other `{`, a name the body holds is replaced by that field's value, in place, with the text around it kept |
| Transform.SubstituteWithoutPlaceholders | service/proxy-service.py:267-270 | a path without placeholders is served unchanged |
| RequestArgs.SplitArgs | service/proxy-service.py:215-228 | paging is on exactly without `page`; streaming exactly for `_do_stream=1`; the service parameters are moved out and nothing else; `since` is copied to `start_modified_at` |
| RequestArgs.GetArgs | service/proxy-service.py:215-228 | the method leaves the request dictionary and the new service arguments as `SplitArgs` says |
| Proxy.ExtensionArguments | service/proxy-service.py:176-180 | a survey has three sub-resources, the first two with their own `include` and only the responses one with the caller's arguments |
| Proxy.JoinedLayout | service/proxy-service.py:184-188 | the items sit at even positions with a single comma between two items and none before the first |
| Proxy.FrameLayout | service/proxy-service.py:164-207 | the output opens with `[`, closes with `]\n`, holds the error text just before the close on failure, and the entities in between |
| Proxy.Sink.Emit | service/proxy-service.py:184-198 | writing an entity keeps the chunks equal to `[` and the comma-joined encodings of all entities written |
| Proxy.EmitAll | service/proxy-service.py:193-198 | the entities written, and the watermark, are those of normalising the input in order |
| Proxy.FetchExtension | service/proxy-service.py:176-188 | the `k`-th sub-fetch uses the survey link plus its suffix, its planned arguments, and is the whole fetch from the current expiry; only the responses fetch advances the caller's arguments |
| Proxy.FetchExtensions | service/proxy-service.py:176-188 | the sub-fetches are made in plan order until one raises, and all three when none does |
| Proxy.ExpandSurvey | service/proxy-service.py:173-188 | a blacklisted survey is skipped with nothing fetched; one without `href` raises a KeyError; otherwise its sub-fetches are made |
| Proxy.ExpansionShape | service/proxy-service.py:173-188 | one survey's expansion meets the declarative account: each sub-fetch at its planned URL with its planned arguments, the responses fetch with the caller's arguments, each the whole fetch from the expiry the previous left; it has the planned shape and is complete unless it failed |
| Proxy.ExpandCharacterised | service/proxy-service.py:173-188 | `Expand` is exactly the one expansion that meets the declarative account |
| Proxy.ExpandPage | service/proxy-service.py:173-188 | the surveys expanded, their sub-fetches and the error are `ExpandSurveys` of the page from the old caller's arguments and expiry; the arguments and expiry are left where the expansions end; the output is the normalised sub-fetch entities in order |
| Proxy.ExpandSurveysPlanned | service/proxy-service.py:173-188 | the expanded surveys are a prefix of the page, the whole page unless one failed, and a failing one is the last; each has the planned shape and all but a failing last one are complete |
| Proxy.ExpandSurveysEach | service/proxy-service.py:173-188 | the `i`-th expanded survey is expanded from the caller's arguments and expiry the earlier ones left, and only the last may fail |
| Proxy.FetchComposite | service/proxy-service.py:170-188 | the surveys, sub-fetches, error, survey page calls and final expiry are `CompositeFrom` the surveys URL with `{}`; the caller's arguments are where the responses fetches left them; the output is the normalised sub-fetch entities in order |
| Proxy.CompositeBudget | service/proxy-service.py:170-188 | the survey page calls start from the given arguments and number at most the page budget, and with a rejection window open nothing is fetched |
| Proxy.CompositeCalls | service/proxy-service.py:170-188 | each survey page call asks for the page after the one the previous call got |
| Proxy.CompositePlanned | service/proxy-service.py:170-188 | every survey of the composite flow has the planned shape, and all are complete but, after a failure, the last |
| Proxy.AccountsLength | service/proxy-service.py:165-205 | the simple flow makes at most one fetch per credential and stops early only because the last fetch raised |
| Proxy.AccountsRuns | service/proxy-service.py:165-192 | the `k`-th fetch uses the `k`-th credential from the arguments and expiry the previous fetch left |
| Proxy.FetchAccount | service/proxy-service.py:190-198 | one credential's fetch is the whole fetch of the URL, and its entities are written normalised |
| Proxy.FetchAccounts | service/proxy-service.py:165-198 | the fetches made are exactly `Accounts` over the credentials; the failure is the last one's error; the output is the normalised entities of all of them |
| Proxy.CompositeAccountsLength | service/proxy-service.py:165-205 | the composite flow makes at most one run per credential, stops early only because its last run failed, and only the last run may fail |
| Proxy.FetchCompositeAccounts | service/proxy-service.py:165-188 | the runs are exactly `CompositeAccounts` over the credentials, chaining the caller's arguments and the rejection expiry; the failure is the last run's error; the output is the normalised entities of all runs |
| Proxy.FetchData | service/proxy-service.py:159-207 | the output is framed; the error is raised only when not streaming; for a simple path the fetches are `Accounts`, for `minimalreportingdata` the runs are `CompositeAccounts`, and either way the output is `SesamifyAll` of their entities |
| Proxy.ErrorStatus | service/proxy-service.py:246-249 | an upstream error with an `http_status_code` answers with that code, any other error with 500 |
| Proxy.GetData | service/proxy-service.py:231-253 | an open rejection window answers 500 and leaves the window and the request as they were; otherwise the reply is served from the split request arguments: the fetches of `fetch_data`, an error reply with its status when they raise and the output is not streamed, else the framed normalised entities, streamed exactly when asked; the window left for the next request is the one the last post-check of these fetches opened, if any |
| Proxy.TransformData | service/proxy-service.py:262-277 | a placeholder naming a missing field answers 500 with a KeyError and changes nothing; otherwise the substituted path is served exactly as `get_data` serves it, rejection window included; every error reply carries its status |

## Left out

- The HTTP framework, the `requests` session, logging, the process
  environment and `sleep` are not modelled. The rate-limit sleeps are
  returned as a list of durations, and the clock is a value carried by each
  response and by the request. So a post-check reads the clock once: a
  window it opens expires at the response's clock reading plus the reset.
  The code reads the clock again when it opens the window, after any sleep
  earlier in the same post-check, so its window ends later by those sleeps.
- Concurrency is not modelled. The rejection window is one `Governor` object
  shared by the calls of a request, not a global shared by parallel requests.
- Floating point: threshold ratios are compared exactly as fractions
  (`10 * remaining <= limit`). A float rounding at a boundary is not
  modelled.
- Pagination is unbounded in the source. The model gives each fetch a page
  budget, `fuel`, and a fetch that uses it up ends with the outcome
  `Exhausted`, which the flows treat as a finished fetch.
- Streaming is modelled eagerly. `fetch_data` builds the whole list of
  chunks, and a streamed reply is those chunks with the flag `streamed`. An
  error after streaming has begun therefore appears as the error text in the
  stream.
- The `StopIteration` raised by the post-check ends the paginator silently.
  That is its meaning before PEP 479. A raise under PEP 479, which would turn
  it into a `RuntimeError`, is not modelled.
- `json.dumps` and `str(err)` are the parameters `encode` and `errText`.
  JSON encoding itself is not modelled.
- The transform route's posted body is taken to be a JSON array whose first
  element is an object, given as `incoming`. Any other body fails at
  service/proxy-service.py:263, outside the route's `try`, and that error
  path is not modelled.
- Entity values are strings. `str()` of a missing field is the string
  `"None"`, and nested JSON values are not modelled. The truthiness test on
  `date_modified` (service/proxy-service.py:123) is read as "present and not
  the empty string", so a JSON `null`, `0` or `false` there is not modelled.
  The blacklist test (service/proxy-service.py:174) compares the raw id with
  the blacklist's strings, so in the code an id that is not a JSON string
  never matches. The model compares the id's string form, so such an id
  could match; it covers ids sent as strings.
- Regular-expression `\d` is the ASCII digits. Python's Unicode digits
  beyond them are not modelled.
- Normaliser.Sesamify: strips offsets with the corrected `RemoveTzOffset`,
  not with the cut of line 117 as written. The two differ only on a value
  that ends in an offset followed by a newline
  (`OffsetRemovalsAgreeWithoutNewline`); there the code leaves a dangling
  `+` (see Findings).
- Normaliser.SesamifyEntity: the same corrected removal, through `Sesamify`.
- Paginator.Page: every response is taken to have a JSON body. A body that
  is not JSON makes `api_response.json()` (line 143) raise before the
  post-check reads the rate-limit headers; that error path is not modelled.
- Paginator.Drain, Proxy.EmitAll and the composite flow methods are proved
  for any post-check, normalisation step and fetch that agree with the real
  ones (`Governs`, `Steps`, `Fetches`). `FetchData` and `GenerateEntities`
  instantiate them with the real functions.

## Findings

| source | as written | input that shows it | evidently intended | confidence | as-written member | corrected member |
|---|---|---|---|---|---|---|
| service/proxy-service.py:117 | `re.search('\+\d\d:\d\d$', value)` then `value[:-6]`; `$` also matches before a final newline | `"10:00+01:00\n"` becomes `"10:00+"` | drop a final `+DD:DD` only when it ends the value | not executed | Normaliser.TrailingNewlineKeepsPlus | Normaliser.RemoveTzOffset |
