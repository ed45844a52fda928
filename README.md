# National Grid NYC Metro usage client, modelled in Dafny

This project models `NationalGridMetroClient`, the command-line client that fetches gas usage and
cost from National Grid's NYC Metro account portal. It covers both scripts:

- `nationalgrid-nyc-metro/app/internal/nationalgridmetro.py` signs in with Selenium and estimates
  the current period from the latest bill's date window.
- `nationalgridmetro.py` signs in with Playwright and takes as the current-month estimate the last
  bill whose start date begins with the current `YYYY-MM`.

The two scripts run the same pipeline:

1. `main` first tries the token cache file (`load_tokens`, with `is_token_expired` deciding freshness).
2. If the cache is missing or stale, or its URN cannot be looked up, it signs in.
3. It reads the browser's local and session storage into one insertion-ordered dictionary.
4. It scans that dictionary for an access token and saves the token (`save_tokens`).
5. It resolves the customer URN (`get_customer_data`).
6. It asks the GraphQL endpoint for two years of bills (`get_usage_and_cost_data`).
7. It turns the bills into periods, totals and an estimate (`process_usage_data`).

The browser, the HTTP replies, the clock and the decoders (base64 plus JSON for token payloads,
JSON for storage values, ISO-8601 parsing for bill dates) are inputs of the model.

Modules, one file each:

| file | module | what it models |
|---|---|---|
| `wrappers.dfy` | `Wrappers` | `Option`, and Python truthiness of an optional string |
| `text.dfy` | `Text` | `in`, `startswith`, `split`/`join`, `count`, ASCII `lower`/`upper` |
| `calendar.dfy` | `Calendar` | the proleptic Gregorian ordinals of `datetime.date` and the `%Y-%m(-%d)` renderings |
| `token_expiry.dfy` | `TokenExpiry` | `is_token_expired` |
| `token_cache.dfy` | `TokenCache` | the cache file's states under `save_tokens` and `load_tokens` |
| `storage_extraction.dfy` | `StorageExtraction` | the storage merge, the token scan and the debug sample of `login_and_get_tokens` |
| `customer_resolution.dfy` | `CustomerResolution` | the URN decision of `get_customer_data` |
| `usage_query.dfy` | `UsageQuery` | the two-year `timeInterval` of `get_usage_and_cost_data` |
| `usage_aggregation.dfy` | `UsageAggregation` | the bill, segment and quantity loops both `process_usage_data` share |
| `window_estimate.dfy` | `WindowEstimate` | `process_usage_data` of the Selenium script |
| `month_estimate.dfy` | `MonthEstimate` | `process_usage_data` of the Playwright script |
| `metro_client.dfy` | `MetroClient` | the client class with its fields and the control flow of `main` |

The object's state is a class `MetroClient.Client`. It has three fields:
- `tokens`: the token dictionary, represented by its access token;
- `customerUrn`;
- `disk`: the cache file, `None` when the file does not exist.

The methods that change the state have `modifies` clauses. Their postconditions tie the new state
to the pure specification functions (`ClassifyCache`, `AfterSave`, `ScanToken`, `ResolveUrn`,
`PeriodsOf`, …). The properties are proved about those functions as lemmas. The loops of the
source are `for` loops with invariants:
- the merge of the two storages;
- the token scan with its `break`s and `continue`s;
- the debug sample;
- the bill, segment and quantity loops.

Amounts are exact reals. Time is given in two forms:
- integer seconds since the Unix epoch, for token expiry;
- integer seconds since 0001-01-01T00:00 of the naive local wall clock, for dates.

## Model

Paths are relative to the repository root. `internal` rows cite the Selenium script and root rows
the Playwright script; where the two scripts share the code, the internal script is cited.

| member | source | states |
|---|---|---|
| TokenExpiry.Padded | nationalgrid-nyc-metro/app/internal/nationalgridmetro.py:48-50 | the padded payload keeps the payload as its prefix, appends one to four `=`, has a length that is a multiple of 4, and gets four `=` exactly when the payload length already was a multiple of 4 |
| TokenExpiry.PayloadBetweenDots | nationalgrid-nyc-metro/app/internal/nationalgridmetro.py:42-48 | a token with exactly two dots is its header, payload and signature joined by dots, and the payload holds no dot |
| TokenExpiry.IsTokenExpired | nationalgrid-nyc-metro/app/internal/nationalgridmetro.py:39-66 | a token is fresh exactly when it has three dot-separated parts, its padded payload decodes to an object whose `exp` is a non-zero number, and now < exp − 300; any other part count means expired |
| TokenExpiry.ExpiredStaysExpired | nationalgrid-nyc-metro/app/internal/nationalgridmetro.py:60-62 | a token judged expired at one moment is judged expired at every later moment |
| TokenCache.AfterSave | nationalgrid-nyc-metro/app/internal/nationalgridmetro.py:68-86 | a save that completes leaves a record of the token and the client's URN; a failure to create the directory or open the file leaves the file as it was |
| TokenCache.ClassifyCache | nationalgrid-nyc-metro/app/internal/nationalgridmetro.py:88-128 | the four outcomes of `load_tokens`, each as an if-and-only-if: no file; a record without a truthy access token (file kept); an unreadable file or an expired token (file removed); otherwise restored, with a non-empty, unexpired token and the stored URN |
| TokenCache.AfterLoad | nationalgrid-nyc-metro/app/internal/nationalgridmetro.py:104-110 | the file is gone after a load exactly when it was missing or the load discarded it (an unreadable file or an expired token); otherwise it is left as it was |
| TokenCache.SaveThenLoad | nationalgrid-nyc-metro/app/internal/nationalgridmetro.py:68-120 | after a save that wrote the whole record (even when `chmod` then fails), a load restores the same token and the URN held at save time while the token is fresh |
| TokenCache.TruncatedWriteIsDiscarded | nationalgrid-nyc-metro/app/internal/nationalgridmetro.py:122-128 | a save that fails part-way through the JSON dump leaves a file that the next load removes |
| TokenCache.LoadIsStable | nationalgrid-nyc-metro/app/internal/nationalgridmetro.py:88-128 | a load never leaves a file that a second load at the same moment would remove, and a load that removes nothing gives the same outcome when repeated |
| StorageExtraction.Put | nationalgrid-nyc-metro/app/internal/nationalgridmetro.py:202 | dictionary assignment keeps every existing key in place, appends a new key at the end, and afterwards looks the key up to the new value |
| StorageExtraction.PutKeepsOthers | nationalgrid-nyc-metro/app/internal/nationalgridmetro.py:202 | assigning one key leaves every other key's lookup unchanged |
| StorageExtraction.CombineStorage | nationalgrid-nyc-metro/app/internal/nationalgridmetro.py:199-204 | the two copy loops build exactly the merged dictionary: local storage as-is, then session storage under `session_<key>` |
| StorageExtraction.PutAllFresh | nationalgrid-nyc-metro/app/internal/nationalgridmetro.py:200-202 | copying local storage, whose keys are distinct, into an empty dictionary gives it back entry for entry |
| StorageExtraction.CombinedOrder | nationalgrid-nyc-metro/app/internal/nationalgridmetro.py:199-204 | the merged dictionary has distinct keys and begins with the local keys in their order |
| StorageExtraction.CombinedSessionWins | nationalgrid-nyc-metro/app/internal/nationalgridmetro.py:203-204 | every session entry is present under `session_<key>` with its own value |
| StorageExtraction.CombinedLocalKept | nationalgrid-nyc-metro/app/internal/nationalgridmetro.py:201-204 | a local entry keeps its value unless some session key, once prefixed, equals its key |
| StorageExtraction.EntryToken | nationalgrid-nyc-metro/app/internal/nationalgridmetro.py:211-250 | whatever the four rules (session access-token key, MSAL key, `access_token` key, JWT-looking value) take from one entry is never an empty token |
| StorageExtraction.ScanToken | nationalgrid-nyc-metro/app/internal/nationalgridmetro.py:210-250 | the scan yields a token exactly when some entry yields one, and that token is non-empty |
| StorageExtraction.ScanTokenIsFirst | nationalgrid-nyc-metro/app/internal/nationalgridmetro.py:210-250 | the scan's token is the one of the first entry, in iteration order, that yields a token, not a global priority over rules |
| StorageExtraction.ScanTokenOfFirst | nationalgrid-nyc-metro/app/internal/nationalgridmetro.py:210-252 | a truthy token taken from the first yielding entry is the scan's token; a falsy result means no entry yields one |
| StorageExtraction.ExtractAccessToken | nationalgrid-nyc-metro/app/internal/nationalgridmetro.py:207-250 | the loop with its `continue`s and `break`s ends with a truthy token exactly when some entry yields one, and then with the first entry's token |
| StorageExtraction.EmptyValueSkipped | nationalgrid-nyc-metro/app/internal/nationalgridmetro.py:211-212 | an entry with an empty value never yields a token |
| StorageExtraction.UnmatchedKeyFallback | nationalgrid-nyc-metro/app/internal/nationalgridmetro.py:247-250 | an entry that matches no key rule yields its value verbatim exactly when it starts with `ey` and is longer than 100 characters |
| StorageExtraction.ParseFailureSkipsEntry | nationalgrid-nyc-metro/app/internal/nationalgridmetro.py:215-222 | a JSON failure on a session access-token entry skips the entry's remaining rules, the JWT fallback included |
| StorageExtraction.DebugSample | nationalgrid-nyc-metro/app/internal/nationalgridmetro.py:254-257 | the debug loop builds exactly `DebugEntries` of the merged dictionary |
| StorageExtraction.DebugEntriesExactly | nationalgrid-nyc-metro/app/internal/nationalgridmetro.py:252-259 | the debug sample holds exactly the non-empty entries whose lower-cased key contains `token`, `auth` or `msal`, each value truncated, and no value is longer than 103 characters |
| StorageExtraction.TruncatedShape | nationalgrid-nyc-metro/app/internal/nationalgridmetro.py:257 | values of at most 100 characters are kept whole; longer ones become their first 100 characters followed by `...` |
| CustomerResolution.ResolveUrn | nationalgridmetro.py:265-307 | a resolved URN needs status 200 and is never empty; any other status gives that status; a 200 object with `uuid` gives `urn:opower:customer:uuid:<uuid>` whatever `results` holds |
| CustomerResolution.ResolvedShapes | nationalgridmetro.py:279-302 | a reply resolves exactly when it is a 200 object with `uuid`, or one whose non-empty `results` starts with an object; then the entry's truthy `urn` wins over its `uuid` |
| CustomerResolution.UuidOfSynthesisedUrn | nationalgridmetro.py:284 | the synthesised URN gives back the uuid it was built from after the fixed prefix |
| CustomerResolution.UuidReplyExample | nationalgridmetro.py:282-284 | `{"uuid": "abc-123"}` resolves to `urn:opower:customer:uuid:abc-123` |
| CustomerResolution.EntryWithoutIdsExample | nationalgridmetro.py:292-294 | a `results` entry with neither `urn` nor `uuid` resolves to the literal `urn:opower:customer:uuid:None` |
| Calendar.FromOrdinalOfOrdinal | nationalgridmetro.py:316-317 | `date.fromordinal` and `date.toordinal` are inverse on valid dates, which is what `datetime - timedelta(days=730)` relies on |
| Calendar.DateOfLocal | nationalgridmetro.py:316 | the calendar date of a local clock reading is the valid date whose ordinal is the reading's whole days plus one |
| Calendar.FormatYearMonthInjective | nationalgridmetro.py:460 | two dates render to the same `%Y-%m` text exactly when they share year and month |
| UsageQuery.WindowDates | nationalgridmetro.py:316-317 | the window ends on today's local date and starts 730 days earlier; it is absent exactly when that start would fall before year 1 |
| UsageQuery.QueryInterval | nationalgridmetro.py:316-319 | the interval exists exactly when the local date is at least 730 days after 0001-01-01, so that the window start is a date Python can represent |
| UsageQuery.QueryIntervalHalves | nationalgridmetro.py:316-319 | the interval holds exactly one `/`, and its halves are the start date at `T00:00:00-04:00` and the end date at `T23:59:59-04:00`, 730 days apart |
| UsageAggregation.LookupBills | nationalgridmetro.py:437-452 | the bills are returned exactly when `data`, the account and `bills` are all present, the first two objects, and `bills` a non-empty array; "No bills data found" comes exactly from a missing `data`, a missing account, a missing `bills` or an empty array; its `has_data` holds exactly when `data` is an object, and `has_billing_account` exactly when the account is an object that holds `bills` or some other member; every other shape raises |
| UsageAggregation.IntervalEnds | nationalgridmetro.py:466-471 | no `/` gives no dates; exactly one `/` gives the two halves, which joined by `/` give the interval back; more than one `/` raises |
| UsageAggregation.IntervalCases | nationalgridmetro.py:468-471 | a bill whose interval has more than one `/` makes the whole call fail; a processable bill without `/` has no start or end date |
| UsageAggregation.CountQuantity | nationalgridmetro.py:482-497 | a quantity whose unit is `TH`/"therm", else whose identifier has `NET_USAGE` (case-sensitive) or "therm", else whose unit has "gas" or "cubic", adds its value and sets the unit ("therms", or the raw unit for gas); any other adds nothing |
| UsageAggregation.QuantityStep | nationalgridmetro.py:482-497 | one more quantity adds its value and replaces the unit exactly when it counts |
| UsageAggregation.AddQuantities | nationalgridmetro.py:482-497 | the quantity loop of one segment extends the usage and unit gathered so far to those of all quantities seen |
| UsageAggregation.UsageOfAppend | nationalgridmetro.py:479-497 | the usage of two runs of quantities put together is the sum of their usages |
| UsageAggregation.UsageBounds | nationalgridmetro.py:474-497 | with no quantity that counts, usage is 0 and the unit stays "therms"; with no negative value, usage is non-negative |
| UsageAggregation.SegmentStep | nationalgridmetro.py:479-507 | one more segment appends its quantities, adds both of its charges, and keeps the bill processable exactly when neither charge value is null |
| UsageAggregation.SumSegments | nationalgridmetro.py:479-507 | the segment loop reports a numeric bill exactly when no charge value is null, with the usage and unit of all quantities and the sum of `usageCharges.value` and `currentAmount.value` over all segments |
| UsageAggregation.SummarizeBill | nationalgridmetro.py:464-520 | one bill gives a period exactly when it is processable, and then the period of `PeriodOf` |
| UsageAggregation.AllProcessableEach | nationalgridmetro.py:463-555 | the whole call gets through the bill loop exactly when every bill is processable |
| UsageAggregation.FailingBill | nationalgridmetro.py:554-555 | one bill that raises makes the whole call fail |
| UsageAggregation.PeriodOf | nationalgridmetro.py:464-517 | a processable bill's period has dates exactly when its interval holds a `/`, and then the two sides of it, which joined by `/` give the interval back; the usage and unit of all its quantities; the cost of all its segments in USD; and the interval itself |
| UsageAggregation.PeriodsOf | nationalgridmetro.py:463-520 | one period per bill |
| UsageAggregation.PeriodsOfEach | nationalgridmetro.py:463-520 | period `i` is the period of bill `i`, so the periods keep the order of the bills |
| UsageAggregation.PeriodsOfSplit | nationalgridmetro.py:463-520 | the periods of a run of bills are those of any prefix followed by those of the rest |
| UsageAggregation.PeriodsStep | nationalgridmetro.py:519-523 | one more bill appends its own period and adds its amounts to both totals |
| UsageAggregation.SummaryOfBills | nationalgridmetro.py:538-551 | the summary counts one bill per bill, reports the last bill's usage unit and USD, and its totals are the sums of the totals of any prefix of the bills and of the rest |
| UsageAggregation.SlashedBill | nationalgridmetro.py:466-517 | a bill whose interval is two slash-free halves joined by `/` is processable when its charges are, and its period has exactly those halves as start and end dates |
| UsageAggregation.OneBillExample | nationalgridmetro.py:463-551 | one bill of one segment with a `TH` quantity of 50, a usage charge of 40 and a current amount of 5 gives one period of 50 therms and 45 USD, and a summary of one bill with totals 50 and 45 |
| UsageAggregation.TotalsSplit | nationalgridmetro.py:522-523 | the totals of two runs of periods put together are the sums of their totals |
| WindowEstimate.LatestPeriodEstimate | nationalgrid-nyc-metro/app/internal/nationalgridmetro.py:724-798 | a missing or unparsable start or end gives the "Date parsing error" form; now outside [start, end] gives the "outside" form; inside a period shorter than one whole day gives no estimate; otherwise 1 ≤ total days, 0 ≤ elapsed ≤ total, both as whole days, with the period's actual amounts and units |
| WindowEstimate.Prorated | nationalgrid-nyc-metro/app/internal/nationalgridmetro.py:748-757 | prorating by whole days: the daily rate times the total gives the amount back, and times the elapsed days gives the elapsed share, within [0, amount] for a non-negative amount |
| WindowEstimate.EstimateIsProportional | nationalgrid-nyc-metro/app/internal/nationalgridmetro.py:746-773 | the projected usage and cost equal the actual ones; the amounts so far are the elapsed share of them and never exceed them when they are not negative |
| WindowEstimate.SummarizeBills | nationalgrid-nyc-metro/app/internal/nationalgridmetro.py:662-722 | the bill loop succeeds exactly when every bill is processable, and then yields `PeriodsOf(bills)` and their totals |
| WindowEstimate.ProcessUsageData | nationalgrid-nyc-metro/app/internal/nationalgridmetro.py:634-817 | the result is `WindowOutcome`: failure on a malformed reply, "no bills" with its flags and count 0, failure exactly when some bill raises, otherwise the periods twice, the estimate of the last period and the summary (totals, bill count, last unit, USD) |
| MonthEstimate.MonthPrefix | nationalgridmetro.py:460 | the current-month prefix is the `%Y-%m` text of the local date, at least seven characters long |
| MonthEstimate.LastInMonthIndex | nationalgridmetro.py:525-527 | the position of a period of the current month after which no period is in the current month, or −1 when none is |
| MonthEstimate.LastInMonthStep | nationalgridmetro.py:525-527 | a later period of the current month replaces the one found so far; any other period keeps it |
| MonthEstimate.MonthEstimateOf | nationalgridmetro.py:529-536 | the estimate is present exactly when some period's start begins with the current `YYYY-MM`, and then reports the last such period and its usage and cost |
| MonthEstimate.MonthMatchIsSameMonth | nationalgridmetro.py:526 | a start date that begins with a date's `%Y-%m` matches the current month exactly when that date is in the current year and month |
| MonthEstimate.ScannedStep | nationalgridmetro.py:519-527 | one more bill extends the periods, both totals, the unit and the current-month period as the loop body does |
| MonthEstimate.SummarizeBills | nationalgridmetro.py:463-527 | the bill loop succeeds exactly when every bill is processable, and then yields the periods, their totals, the last bill's unit and the last period of the current month |
| MonthEstimate.ProcessUsageData | nationalgridmetro.py:435-555 | the result is `MonthOutcome`: as the window script, except that the estimate is that of the last period of the current month |
| MetroClient.Client.constructor | nationalgridmetro.py:18-25 | a new client has no tokens and no URN, and the cache file is as found |
| MetroClient.Client.SaveTokens | nationalgrid-nyc-metro/app/internal/nationalgridmetro.py:68-86 | returns True exactly when no step fails; the file becomes `AfterSave` of the token and the current URN; the fields are untouched |
| MetroClient.Client.LoadTokens | nationalgrid-nyc-metro/app/internal/nationalgridmetro.py:88-128 | reports a hit exactly when the cache is restored; the file is removed exactly when the cache is discarded; a hit restores the token and URN, and a miss changes neither |
| MetroClient.Client.LoginAndGetTokens | nationalgrid-nyc-metro/app/internal/nationalgridmetro.py:194-272 | a browser failure is an error that changes nothing; otherwise the token is `ScanToken` of the merged storage; none gives the debug sample and changes nothing; one is stored and saved with the current URN |
| MetroClient.Client.GetCustomerData | nationalgrid-nyc-metro/app/internal/nationalgridmetro.py:274-316 | without tokens it fails before any request; otherwise the result is `ResolveUrn` of the reply; a resolved URN is stored and the cache rewritten with it, and a failure leaves the URN and the file unchanged |
| MetroClient.Client.GetUsageAndCostData | nationalgrid-nyc-metro/app/internal/nationalgridmetro.py:318-442 | a falsy URN gives "Customer URN not available" and sends nothing; otherwise the request carries the URN and the two-year interval; a non-200 status is reported; a 200 JSON body gives the script's own `process_usage_data` outcome |
| MetroClient.RequestFor | nationalgrid-nyc-metro/app/internal/nationalgridmetro.py:323-341 | a request is sent exactly when the two-year interval can be built, and it carries the given URN |
| MetroClient.FreshToken | nationalgrid-nyc-metro/app/internal/nationalgridmetro.py:194-250 | the token a fresh login finds is never empty; there is none when the browser fails |
| MetroClient.FetchUrn | nationalgrid-nyc-metro/app/internal/nationalgridmetro.py:829-861 | the URN `main` fetches for is never empty, so `main` never reports "Customer URN not available" |
| MetroClient.UseCache | nationalgrid-nyc-metro/app/internal/nationalgridmetro.py:829-842 | step 1 of `main`: it serves exactly when the cache restores a token that has a URN or whose lookup resolves one, and then the client holds the cached token and the URN to fetch for; otherwise the client holds the restored URN, if any; the lookup happens exactly when the restored cache has no truthy URN; the file it leaves is `CacheStepDisk` |
| MetroClient.FreshLogin | nationalgrid-nyc-metro/app/internal/nationalgridmetro.py:844-857 | step 2 of `main`: it succeeds exactly when the browser's storages yield a token and the lookup with it resolves; otherwise it reports the login failure (browser error or no token, with the debug sample) or the lookup's failure; on success the client holds that token and URN; on every path the file it leaves is `LoginStepDisk` of the file and URN it started from |
| MetroClient.Authenticate | nationalgrid-nyc-metro/app/internal/nationalgridmetro.py:829-857 | steps 1 and 2 of `main`: they succeed exactly when there is a URN to fetch for, leaving the client with a token and that URN; a login happens exactly when the cache cannot serve; after a login, a failure is the login's or the fresh lookup's own failure, and success leaves the fresh token; on every path the file left is `MainCache` |
| MetroClient.Run | nationalgrid-nyc-metro/app/internal/nationalgridmetro.py:819-861 | `main`: the stages follow one of the eight possible orders with at most one login; when a login happens, it fails exactly when the browser fails or its merged storages yield no token, and then nothing is fetched; after a successful login the usage is fetched exactly when the fresh lookup resolves; the fetch happens exactly when a URN to fetch for exists, and then the request carries that URN and the two-year interval and the result is the one `get_usage_and_cost_data` gives for the reply; a restored cache with a URN goes straight to the fetch; the cache file left is `MainCache` on every path, and after a login that reaches the fetch and whose last save has no fault it holds the new token and URN |
| MetroClient.CacheStepDisk | nationalgrid-nyc-metro/app/internal/nationalgridmetro.py:829-842 | after step 1 the file is gone when the load discarded it, untouched when there was no file, no access token, or a URN in the cache, and holds the cached token with the found URN when a lookup with that token resolves and its save succeeds |
| MetroClient.LoginStepDisk | nationalgrid-nyc-metro/app/internal/nationalgridmetro.py:844-857 | after step 2 the file is untouched when no token is found; after a failed lookup and a fault-free save it holds the fresh token with the URN held before the login; after a resolved lookup whose save succeeds it holds the fresh token and the fresh URN |
| MetroClient.CachedLookupIsReused | nationalgrid-nyc-metro/app/internal/nationalgridmetro.py:829-842 | the cache a run leaves after finding the URN with its cached token, and saving it whole, lets a later run, while the token is fresh, restore a truthy URN, skip both the lookup and the login, and fetch for the same URN |
| MetroClient.SavedLoginIsReused | nationalgrid-nyc-metro/app/internal/nationalgridmetro.py:68-128 | the cache a run leaves after a login whose last save wrote the whole record restores that token and URN for a later run while the token is fresh: that run skips the login and fetches for the same URN |

## Left out

- Browser automation is not modelled: launch options, page loads, DOM waits, sleeps, form submission and `quit`/`close`. The model starts from the ordered local and session storage the browser yields, or from its failure.
- The HTTP exchanges (aiohttp) are not modelled. A reply is an input: a network error, or a status with a parsed body.
- `get_current_usage_data` (nationalgrid-nyc-metro/app/internal/nationalgridmetro.py:444-632) is left out. It probes three queries and `main` never calls it.
- The Flask wrappers `app/app.py` and `nationalgrid-nyc-metro/app/app.py` are not part of this model.
- Directory and file permissions, the cache file's JSON layout and its `saved_at` timestamp are not modelled. `saved_at` is only reported, never decided on.
- A failure of `os.remove` is not modelled. The source ignores it, and the model treats the file as gone.
- Base64 and JSON decoding are abstract decoders passed as parameters. The source uses the standard base64 alphabet where JWT payloads use base64url; that difference lives inside the decoder.
- `round(x, 2)` and binary floating-point summation are not modelled. Amounts are exact reals, and the estimate's rounded fields are the unrounded values.
- `datetime.now()` and time zones are not modelled. Two clock readings are inputs: epoch seconds and naive local seconds. The same local reading serves every use of `now` in one run, and sub-second parts are dropped.
- Years before 1000 are written zero-padded to four digits. What Python's `%Y` prints for them depends on the platform's C library. A window that would start before year 1 is an error, as in Python.
- The command-line checks of `argv`, `sys.exit`, the stderr messages, the printed JSON and the constant GraphQL query text are not modelled. `main`'s result is returned instead of printed.
- Case folding is ASCII-only. Python's `lower`/`upper` fold all of Unicode.
- Amounts are modelled as numbers: `serviceQuantity.value`, `usageCharges.value` and `currentAmount.value` are reals, with `null` modelled (as 0 for a quantity, as a failure for a charge). A non-number value there is not modelled: a truthy string makes the source raise and the whole call fail, and `true` adds 1.
- JSON values that the source expects to be strings (`secret`, `access_token`, `urn`, `uuid`, units and identifiers) are modelled as strings. Non-string numbers, booleans, arrays or objects in those places are not distinguished. An `exp` that is not an integer is not modelled.
- The Playwright script builds its merged storage inside JavaScript, where integer-like keys are ordered first. The model uses plain insertion order for both scripts.
- The "Could not submit login form" failure has no outcome of its own. Neither script can reach it, because both set `submitted` on every path before checking it.
- `MetroClient.Client.tokens` holds only the access token. The dictionary restored from the cache may hold other members, which nothing reads.
- `CustomerResolution.ResolveUrn`: a `results` member that is present but not an array is always an error. A non-empty string or dictionary there, or `null`, does raise. An empty string or empty dictionary would instead give "Unexpected customer data format".
- `UsageAggregation.LookupBills`: a `bills` member that is neither an array nor `null` is not modelled.
- `UsageAggregation.CountQuantity`: a `serviceQuantity` that is `null` makes the source raise. The model reads it as the value 0, like an absent one. A `null` `timeInterval` or `segments` also raises in the source; the model reads them as absent. A `null` `serviceQuantities` list, and a `null` element inside `bills`, `segments` or `serviceQuantities`, also raise in the source (iterating over `None`, or `.get` on `None`), so the whole call fails; the model has no value for them and reads a `null` list as an empty one.
- The "No bills data found" debug output's `full_response` copy of the reply is not modelled.
