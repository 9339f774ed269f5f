# Lynkr core, modelled in Dafny

Lynkr is an event-engagement platform: brands run events, attendees check in
within a time window and a geofence, post content, answer pulse surveys, receive
rewards and redeem discount codes, and brands read funnels and exports. This
project models the decision logic and in-memory state of the platform's core:

- the Go backend's services: TTL cache, rate limiter, migration runner, events and
  attendance, geofences, discount codes, anonymiser, input audit, role gates,
  rewards, sentiment, usability severity, conversion funnel, export, pulse
  surveys, AI tagging and polls;
- the mobile client's API wrapper, its screens' controllers and its Redux slices;
- the brand portal's session store.

Each source file is one module (one `.dfy` file with the same base name).
`Wrappers` holds `Option` and `Result`; `Strings` holds the string operations the
sources use (Go and JavaScript trimming, splitting, lower-casing, decimal text,
`parseInt`).

The model follows the kind of code it describes:
- Pure decisions are functions.
- Loops are methods with invariants, proved equal to a specification function.
- Objects whose fields change are classes:
  - the cache;
  - the limiter;
  - the migrator;
  - the services over their tables;
  - the screen controllers;
  - the slices;
  - the session store.

The following become parameters:
- database tables, as class fields (sequences of rows or maps);
- the clock (`now`, nanoseconds for Go, milliseconds for JavaScript);
- random bytes;
- each statement's failure, as an optional error, and each row's scan failure, as a per-row predicate;
- `JSON.parse` of text the session store holds;
- the geometric inside-tests.

Decoded JSON is a value: the `Value` datatype for the anonymiser's settings, and the
decoded records elsewhere.

Where a natural reading and the code differ, the model follows the code:
- `GetCodeAnalytics` scans a usage count into the revenue column.
- The cache's `contains` is a prefix test.
- Two `attendances` schemas are used by `event.go` and `attendance_service.go`; each is modelled as its own table.

## Model

| member | source | states |
|---|---|---|
| Wrappers.Scanned | backend/internal/services/discount.go:172-181 | a scan loop that skips rows failing to scan keeps only values of rows that scanned, so never more values than rows |
| Wrappers.Kept | backend/internal/services/attendance_service.go:72-79 | a scan loop that skips each row that fails to scan keeps exactly the rows that scan, in order, and never more rows than it read |
| Wrappers.KeptAll | backend/internal/services/attendance_service.go:72-79 | when every row scans, the loop keeps them all |
| AiTagging.DetectProducts | backend/internal/services/ai_tagging.go:65-81 | the simulated detection is one product, and its confidence is above the 0.7 tagging threshold |
| AiTagging.GenerateTags | backend/internal/services/ai_tagging.go:83-92 | the tags the loop appends are exactly the tags of the confident products, in product order |
| AiTagging.TagsCount | backend/internal/services/ai_tagging.go:85-90 | each product above the threshold gives exactly two tags, so a set of products with no confident detection gives no tags |
| AiTagging.TagsConcat | backend/internal/services/ai_tagging.go:85-90 | tagging follows product order: the tags of two product lists joined are the two tag lists joined |
| AiTagging.SingleProductTags | backend/internal/services/ai_tagging.go:86-89 | a product at or below 0.7 gives no tag; one above gives its lower-cased name and then "brand_" + its brand id |
| AiTagging.SampleTags | backend/internal/services/ai_tagging.go:44-92 | whatever the media, content is tagged "sample product" and "brand_brand_1" |
| AiTagging.AiTaggingService.constructor | backend/internal/services/ai_tagging.go:40-42 | a new service has stored no results |
| AiTagging.AiTaggingService.ProcessContent | backend/internal/services/ai_tagging.go:44-63 | on success it returns and stores one result carrying the content id, the detection, that detection's tags and the current time; a store error comes back wrapped as "failed to store AI tagging results: …", with nothing stored |
| Anonymizer.MaskUser | backend/pkg/privacy/anonymizer.go:51-63 | a username longer than two keeps its first and last characters, with every character between them masked and the length unchanged; a two-character name keeps its first character and then "*"; a shorter one gains one "*" |
| Anonymizer.AnonymizeEmail | backend/pkg/privacy/anonymizer.go:42-64 | an address with no '@' or with more than one becomes "invalid@example.com"; otherwise the address is user@domain, and the result is the masked user, then "@", then the domain as given |
| Anonymizer.EmailMasked | backend/pkg/privacy/anonymizer.go:42-64 | for user@domain (neither part holding '@') the domain is kept verbatim and the output holds exactly one '@' |
| Anonymizer.MaskUserIdempotent | backend/pkg/privacy/anonymizer.go:51-63 | masking an already-masked non-empty username changes nothing |
| Anonymizer.EmailMaskingIdempotent | backend/pkg/privacy/anonymizer.go:42-64 | masking a well-formed address with a non-empty username twice gives the same as masking it once |
| Anonymizer.BoolField | backend/pkg/privacy/anonymizer.go:149-155 | the keys that set a Boolean field are those that match its tag without regard to ASCII case (the Kelvin sign and the long s count as K and S) and hold a Boolean; with none the default stays, otherwise the value is the one at the key that sorts last, since Marshal writes keys sorted and Unmarshal assigns them in that order; null and values of another type change nothing |
| Anonymizer.StringField | backend/pkg/privacy/anonymizer.go:149-155 | the same for a text field: the value at the last-sorted matching key that holds a string, or the default when no such key exists |
| Anonymizer.LastBoolKeyDecides | backend/pkg/privacy/anonymizer.go:149-155 | whichever matching Boolean key sorts after every other one decides the field |
| Anonymizer.LastStringKeyDecides | backend/pkg/privacy/anonymizer.go:149-155 | whichever matching string key sorts after every other one decides the field |
| Anonymizer.LaterBoolKey | backend/pkg/privacy/anonymizer.go:149-155 | of two keys naming one Boolean field, the later-sorted one wins, and a null there leaves the earlier one's value |
| Anonymizer.KeysMatchWithoutCase | backend/pkg/privacy/anonymizer.go:149-155 | "ShareAnalytics": false turns analytics off, and "DATARETENTION": "30days" sets the retention key |
| Anonymizer.LowerCaseKeyWins | backend/pkg/privacy/anonymizer.go:149-155 | with both "shareAnalytics": true and "shareanalytics": false the lower-case key, which sorts later, wins and analytics is off |
| Anonymizer.GetPrivacySettings | backend/pkg/privacy/anonymizer.go:138-158 | with no settings, or an empty object, the defaults apply: location not shared, content, notifications, analytics and personalisation on, retention "90days"; otherwise each of the six fields is decoded from the object with that field's default |
| Anonymizer.RetentionPeriod | backend/pkg/privacy/anonymizer.go:19-32 | the retention table defines exactly the keys 30days, 90days, 1year and forever, each with a positive period |
| Anonymizer.ShouldRetainData | backend/pkg/privacy/anonymizer.go:113-125 | data is kept while its age is at most the period for the settings' retention key; a key the table lacks falls back to 90 days |
| Anonymizer.RetentionOrdered | backend/pkg/privacy/anonymizer.go:19-125 | settings whose retention key comes later in 30days, 90days, 1year, forever keep everything that settings with an earlier key keep |
| Anonymizer.RetentionDefault | backend/pkg/privacy/anonymizer.go:113-125 | with no settings the cut-off is 90 days, and an explicit "90days" or an unknown key such as "2years" behaves the same |
| Anonymizer.RetainedUnder | backend/pkg/privacy/anonymizer.go:113-125 | settings holding only a retention key keep data exactly while its age is within that key's period, or 90 days for an unknown key |
| Anonymizer.AnonymizeData | backend/pkg/privacy/anonymizer.go:73-110 | the result has the input's keys, less "analytics" and "usage_data" when analytics may not be shared; every other entry is unchanged, except that a string e-mail is masked and a location with numeric coordinates is coarsened when location may not be shared |
| Anonymizer.CopyData | backend/pkg/privacy/anonymizer.go:74-79 | the copy loop yields a map equal to the input |
| Api.BaseUrlFor | mobile-client/src/services/api.ts:19-28 | the "user" role selects the host's /user/v1, the "brand" role /brand/v1, and no role or any other role /api/v1 |
| Api.UrlFor | mobile-client/src/services/api.ts:30-32 | an endpoint beginning "/api/v1" is appended to the bare host; any other endpoint is appended to the role's base URL |
| Api.HeadersFor | mobile-client/src/services/api.ts:34-38 | the caller's headers always win; otherwise Content-Type is application/json, and Authorization is "Bearer " + token exactly when a non-empty token is held; no other header is added |
| Api.ApiService.constructor | mobile-client/src/services/api.ts:7-9 | a new client holds no token and no role |
| Api.ApiService.SetToken | mobile-client/src/services/api.ts:11-13 | the token is replaced and the role kept |
| Api.ApiService.SetUserRole | mobile-client/src/services/api.ts:15-17 | the role is replaced and the token kept |
| Api.ApiService.Logout | mobile-client/src/services/api.ts:435-438 | logout forgets both the token and the role |
| Api.ApiService.Request | mobile-client/src/services/api.ts:30-47 | the request sent has the composed URL, the caller's method and body, and the composed headers; an OK response yields its JSON, and any other yields the error "API Error: " + status |
| Api.ApiService.UploadContent | mobile-client/src/services/api.ts:117-137 | the upload is a POST of the form to the role's /content, even for the public base, carrying only the bearer header (and that only with a token); the response is handled as in request |
| Api.ApiService.UpdateContentPermissions | mobile-client/src/services/api.ts:139-144 | as written it sends a PUT of the permissions to the role's base URL followed directly by "user/v1/content/<id>/permissions" |
| Api.ApiService.UpdateContentPermissionsIntended | mobile-client/src/services/api.ts:139-144 | the corrected call sends the same PUT to the role's base URL + "/content/<id>/permissions" |
| Api.PermissionsEndpoint | mobile-client/src/services/api.ts:140 | the endpoint as written does not begin "/api/v1", so request puts it after the role's base URL |
| Api.PermissionsEndpointIntended | mobile-client/src/services/api.ts:140 | the intended endpoint is relative to the role's base URL, like "/content" |
| Api.IntendedPermissionsUrl | mobile-client/src/services/api.ts:117-144 | for a user, the corrected endpoint reaches /user/v1/content/<id>/permissions, below the route uploadContent posts to |
| Api.PermissionsUrlDoubled | mobile-client/src/services/api.ts:139-144 | for a user, the endpoint as written gives ".../user/v1user/v1/content/<id>/permissions", which is not the user API's permissions route |
| Api.PublicEndpointIgnoresRole | mobile-client/src/services/api.ts:31-32 | a public endpoint reaches the same URL whatever the role, including the login and register calls |
| Api.LoggedOutRequests | mobile-client/src/services/api.ts:435-438 | after logout a non-public endpoint goes to /api/v1, and no Authorization header is sent unless the caller supplies one |
| Api.ApiErrorStatusOnly | mobile-client/src/services/api.ts:42-44 | an error message carries only the status: two errors are equal exactly when their statuses are |
| AttendanceService.FindPair | backend/internal/services/attendance_service.go:30 | the row the upsert conflicts with: a position holding the (user, event) pair, or -1 exactly when no row holds it |
| AttendanceService.CheckOutRows | backend/internal/services/attendance_service.go:43-47 | the check-out UPDATE leaves the number of rows as it was |
| AttendanceService.ForEvent | backend/internal/services/attendance_service.go:58-61 | the selected rows all belong to the event asked for |
| AttendanceService.InsertDesc | backend/internal/services/attendance_service.go:62 | inserting one row into a list ordered by check-in time, latest first with no check-in last, keeps it ordered and adds exactly that row |
| AttendanceService.SortDesc | backend/internal/services/attendance_service.go:62 | ORDER BY checkin_time DESC: the result is ordered latest first, with rows lacking a check-in last, and is a permutation of the input |
| AttendanceService.AttendanceService.constructor | backend/internal/services/attendance_service.go:22-24 | a new service starts from an empty table, which holds at most one row per pair |
| AttendanceService.AttendanceService.CheckIn | backend/internal/services/attendance_service.go:26-40 | a fresh pair gains a new row checked in now; an existing pair has only its check-in time replaced; a failing statement returns "failed to check in: …" and leaves the table; one row per pair is kept |
| AttendanceService.AttendanceService.CheckOut | backend/internal/services/attendance_service.go:42-55 | every row of the pair that has no check-out time is given one; it succeeds even when no row matched; a failing statement returns "failed to check out: …" and leaves the table |
| AttendanceService.AttendanceService.IsUserCheckedIn | backend/internal/services/attendance_service.go:84-98 | true exactly when some row of the pair has a check-in time and no check-out time; a failing query returns "failed to check attendance status: …" |
| AttendanceService.AttendanceService.GetEventAttendances | backend/internal/services/attendance_service.go:57-82 | exactly the event's rows that scan (as a multiset), latest check-in first, each taken from the table; a row that fails to scan is skipped; a failing query returns "failed to get attendances: …" |
| AttendanceService.CountActivePositive | backend/internal/services/attendance_service.go:85-97 | the COUNT(*) is positive exactly when an open row of the pair exists |
| AttendanceService.ForEventFrom | backend/internal/services/attendance_service.go:58-61 | whatever the selection returns comes from the table and belongs to the event |
| AttendanceService.CheckInKeepsUnique | backend/internal/services/attendance_service.go:27-31 | the upsert keeps at most one row per (user, event) pair |
| AttendanceService.CheckOutKeepsUnique | backend/internal/services/attendance_service.go:43-47 | the check-out update keeps at most one row per (user, event) pair |
| AttendanceService.FreshCheckIn | backend/internal/services/attendance_service.go:27-29 | a first check-in appends exactly one row for the pair, checked in and created now with no check-out, and leaves the others |
| AttendanceService.RecheckInKeepsCheckout | backend/internal/services/attendance_service.go:26-55 | checking in again after a check-out leaves the user not checked in, because the upsert rewrites only checkin_time |
| AttendanceService.NoActiveCountsZero | backend/internal/services/attendance_service.go:85-97 | with no open row of the pair the count is zero |
| AttendanceService.CheckOutEndsActive | backend/internal/services/attendance_service.go:42-55 | after a check-out the user is not checked in at the event, and rows of other pairs are unchanged |
| Audit.ValidateInput | backend/internal/security/audit.go:193-215 | as written: the input is accepted exactly when none of the eight patterns matches anywhere in its lower-cased form |
| Audit.MatchedPiecesOccur | backend/internal/security/audit.go:207-208 | when a pattern of literals joined by ".*" matches, each of its literals occurs in the input |
| Audit.UpperPatternNeverMatches | backend/internal/security/audit.go:206-208 | a pattern with an upper-case letter in one of its literals never matches a lower-cased input |
| Audit.UppercasePatternsDead | backend/internal/security/audit.go:200-206 | the quote/OR, double-quote/OR, UNION/SELECT and DROP/TABLE patterns can never match, because the input is lower-cased before the test |
| Audit.ValidateInputLiteralOnly | backend/internal/security/audit.go:193-215 | so the check refuses exactly the inputs whose lower-cased form contains "<script", "javascript:", "onload=" or "onerror=" |
| Audit.LiteralMatch | backend/internal/security/audit.go:196-199 | a pattern without ".*" matches exactly when its literal occurs in the input |
| Audit.ValidateInputCaseInvariant | backend/internal/security/audit.go:206 | two inputs with the same lower-cased form are treated alike |
| Audit.ValidateInputOfLowered | backend/internal/security/audit.go:206 | lower-casing the input first does not change the outcome |
| Audit.ScriptTagRejected | backend/internal/security/audit.go:196 | a script tag, <script>alert("test")</script>, is refused |
| Audit.SqlProbeAccepted | backend/internal/security/audit.go:200-206 | as written, the probe ' OR '1'='1 is accepted |
| Audit.LowerPattern | backend/internal/security/audit.go:200-203 | the corrected pattern list: each literal of each pattern lower-cased, the pattern's shape kept |
| Audit.ValidateInputIntended | backend/internal/security/audit.go:193-215 | corrected: the input is accepted exactly when no lower-cased pattern matches its lower-cased form |
| Audit.SqlProbeRejectedWhenIntended | backend/internal/security/audit.go:200 | corrected, the probe ' OR '1'='1 is refused by the quote/OR pattern |
| Audit.IntendedIsStricter | backend/internal/security/audit.go:195-204 | the corrected check refuses every input the check as written refuses |
| Audit.SecureCompare | backend/internal/security/audit.go:235-237 | the constant-time comparison reports equality exactly when the two strings are equal |
| Audit.CountMatching | backend/internal/security/audit.go:218-221 | the COUNT(*) of recent events for the user and endpoint is never more than the number of events |
| Audit.CheckRateLimit | backend/internal/security/audit.go:217-227 | a request is allowed exactly when fewer than `limit` of the user's events newer than now - window mention the endpoint; if the query fails its error is ignored, the count stays 0, and any positive limit allows; fewer events than the limit always allow |
| Audit.OtherUsersIrrelevant | backend/internal/security/audit.go:220 | events of other users never change the count, so they never change the decision |
| Cache.Cache.constructor | backend/internal/performance/cache.go:24-33 | a new cache is empty |
| Cache.Cache.Set | backend/internal/performance/cache.go:35-43 | the key now maps to the value, expiring ttl after now; every other entry is unchanged |
| Cache.Cache.Get | backend/internal/performance/cache.go:45-55 | a hit exactly when the key is present and now is not after its expiry, and a hit returns the stored value |
| Cache.Cache.Delete | backend/internal/performance/cache.go:57-62 | exactly the key is removed |
| Cache.Cache.Clear | backend/internal/performance/cache.go:64-69 | the cache is empty afterwards |
| Cache.Cache.Cleanup | backend/internal/performance/cache.go:75-83 | one ticker pass deletes exactly the entries expired at that instant and keeps the others with their values |
| Cache.Cache.GetStats | backend/internal/performance/cache.go:87-104 | total is the number of entries, expired the number whose expiry has passed, and active the difference, which is never negative |
| Cache.Cache.InvalidatePattern | backend/internal/performance/cache.go:131-144 | deletes exactly the keys that begin with the pattern, which is what the file's `contains` tests, and keeps the rest |
| Cache.Cache.CacheEventData | backend/internal/performance/cache.go:107-109 | the data is stored under "event:" + id for ten minutes |
| Cache.Cache.GetEventData | backend/internal/performance/cache.go:111-113 | reads what is stored under "event:" + id and still live |
| Cache.Cache.CacheUserData | backend/internal/performance/cache.go:115-117 | the data is stored under "user:" + id for five minutes |
| Cache.Cache.GetUserData | backend/internal/performance/cache.go:119-121 | reads what is stored under "user:" + id and still live |
| Cache.Cache.CacheAnalytics | backend/internal/performance/cache.go:123-125 | the data is stored under "analytics:" + key for fifteen minutes |
| Cache.Cache.GetAnalytics | backend/internal/performance/cache.go:127-129 | reads what is stored under "analytics:" + key and still live |
| Cache.ExpiredInStep | backend/internal/performance/cache.go:93-97 | the counting loop's step: one more entry seen adds one exactly when it has expired |
| Cache.ExpiredKeysBound | backend/internal/performance/cache.go:99-103 | the expired count never exceeds the total, so active_items is never negative |
| Cache.SetThenGet | backend/internal/performance/cache.go:35-55 | a value set is readable up to and including its expiry instant, and not after |
| Cache.SetOtherKey | backend/internal/performance/cache.go:35-55 | setting one key does not change what any other key reads |
| Cache.DeleteThenGet | backend/internal/performance/cache.go:45-62 | after a delete the key misses, and every other key reads as before |
| Cache.SweepExact | backend/internal/performance/cache.go:71-85 | the cleanup keeps exactly the entries not expired, with their values, and no Get at that instant answers differently |
| Cache.SweepLeavesNoExpired | backend/internal/performance/cache.go:71-104 | after a cleanup nothing is expired at that instant, and what remains is the active count |
| Cache.TypedKeysDistinct | backend/internal/performance/cache.go:107-129 | keys of the event, user and analytics helpers never collide |
| Cache.InvalidateEvents | backend/internal/performance/cache.go:131-144 | invalidating "event:" removes every cached event and keeps every cached user with its value |
| Cache.CacheEventRoundTrip | backend/internal/performance/cache.go:107-113 | event data cached at a given time reads back unchanged for the ten minutes after it |
| Discount.FirstValid | backend/internal/services/discount.go:74-81 | the row ValidateCode reads: a row of the table with that code that is redeemable now, or none exactly when no such row exists |
| Discount.Incremented | backend/internal/services/discount.go:116 | the usage UPDATE keeps the number of rows |
| Discount.GenerateUniqueCode | backend/internal/services/discount.go:202-215 | the code has eight characters, the i-th the charset's character at random byte i modulo 36, so always an upper-case letter or a digit |
| Discount.RedeemError | backend/internal/services/discount.go:97-124 | the transaction succeeds only without a fault; a failed insert reports "failed to record redemption: …", a failed update "failed to update code usage: …", and a failed begin or commit passes its error through unchanged |
| Discount.GetCodeAnalytics | backend/internal/services/discount.go:136-200 | a failing query reports "failed to get code analytics: …"; otherwise the result is the rows that scanned, with the total redemptions and total revenue summed over exactly those rows |
| Discount.Summarize | backend/internal/services/discount.go:168-193 | the scan loop keeps the rows that scan, in order, with the two running totals over them |
| Discount.DiscountService.constructor | backend/internal/services/discount.go:41-43 | a new service starts from empty code and redemption tables |
| Discount.DiscountService.GenerateCode | backend/internal/services/discount.go:45-71 | on success one row is added and returned: id "discount_" + the time in nanoseconds, the generated code, no uses yet, and the given event, brand, percentage, limit and expiry; a failed insert reports "failed to create discount code: …" and adds nothing |
| Discount.DiscountService.ValidateCode | backend/internal/services/discount.go:73-92 | returns a row with that code that is unexpired and below its limit (a limit of 0 meaning unlimited); it fails with "invalid or expired discount code" whenever the query or its scan fails, and otherwise exactly when no such row exists |
| Discount.DiscountService.RedeemCode | backend/internal/services/discount.go:94-134 | all or nothing: without a fault one redemption row "redemption_<time>" is recorded and the code's count goes up by one; any fault leaves both tables as they were |
| Discount.GeneratedCodeValidates | backend/internal/services/discount.go:45-92 | a freshly generated code that has not expired validates |
| Discount.UnlimitedNeverUsedUp | backend/internal/services/discount.go:77 | a code with limit 0 stays redeemable until it expires, whatever its count |
| Discount.LimitedUsedUp | backend/internal/services/discount.go:77 | a limited code is used up once its count reaches the limit, and one more use never makes a used-up code valid again |
| Discount.IncrementedExactly | backend/internal/services/discount.go:116 | redeeming adds one use to exactly the named code and leaves every other row alone |
| Discount.SumsSplit | backend/internal/services/discount.go:191-192 | the analytics totals over rows split in two are the sums of the totals of the parts |
| DiscountCodesScreen.UsagePercentage | mobile-client/src/screens/DiscountCodesScreen.tsx:73-75 | the bar is used/max as a percentage when the limit is positive, and 0 when it is not |
| DiscountCodesScreen.StatusText | mobile-client/src/screens/DiscountCodesScreen.tsx:86-93 | "Expired" exactly when the expiry is before now; otherwise "Used Up" exactly when the count has reached the limit, and "Active" exactly when it has not |
| DiscountCodesScreen.ColourMatchesText | mobile-client/src/screens/DiscountCodesScreen.tsx:77-93 | the badge colour always agrees with its text: red with Expired, gray with Used Up and green with Active |
| DiscountCodesScreen.UsageBounds | mobile-client/src/screens/DiscountCodesScreen.tsx:73-75 | for a positive limit the bar reaches 100 percent exactly when the count reaches the limit |
| DiscountCodesScreen.UnlimitedShownUsedUp | mobile-client/src/screens/DiscountCodesScreen.tsx:91 | a code with limit 0 that the server still accepts, being unlimited and unexpired, is shown as "Used Up" |
| DiscountCodesScreen.PercentageParsed | mobile-client/src/screens/DiscountCodesScreen.tsx:43 | the percentage "12abc" is sent as 12, "12.5" as 12.5 and "abc" as null (NaN in JSON) |
| DiscountCodesScreen.DiscountCodesController.constructor | mobile-client/src/screens/DiscountCodesScreen.tsx:6-14 | the screen starts loading, with no codes, the modal closed and the form empty except for an expiry of "30" |
| DiscountCodesScreen.DiscountCodesController.LoadCodes | mobile-client/src/screens/DiscountCodesScreen.tsx:20-32 | the answered list replaces the codes; a failure keeps them and alerts "Failed to load discount codes"; loading ends either way |
| DiscountCodesScreen.DiscountCodesController.CreateCode | mobile-client/src/screens/DiscountCodesScreen.tsx:34-54 | without an event, a percentage and a limit it alerts "Please fill in all required fields" and sends nothing; otherwise it sends the form with the percentage read by `parseFloat` and the limit and expiry by `parseInt`; on success it alerts success, closes and resets the form and reloads the list, and on failure it alerts "Failed to create discount code" and keeps the form |
| DiscountCodesScreen.DiscountCodesController.Submit | mobile-client/src/screens/DiscountCodesScreen.tsx:41-46 | the request sent is the form read by `RequestOf`, and no other field of the screen changes |
| DiscountCodesScreen.DiscountCodesController.Created | mobile-client/src/screens/DiscountCodesScreen.tsx:47-50 | after a created code: the success alert, the modal closed, the form reset, and the list reloaded |
| Event.CheckInError | backend/internal/services/event/event.go:174-204 | the guards run in order: a missing event gives "event not found", a start still ahead "event has not started yet", a passed end "event has already ended", then geofence data that fails to parse gives its error and a point outside gives "user is not within event geofence"; it passes exactly inside [start, end] with the point inside any geofence |
| Event.Page | backend/internal/services/event/event.go:330-340 | an offset at or past the end gives no events; otherwise Go's slice panics exactly when the offset is negative or offset + limit, wrapping around as a 64-bit int, falls below the offset; else the events from the offset on, at most `limit` of them, in order |
| Event.EventService.constructor | backend/internal/services/event/event.go:51-53 | a new service starts from empty events and attendances tables |
| Event.EventService.GetByID | backend/internal/services/event/event.go:102-131 | a query or scan failure other than no rows is returned as it is; otherwise the stored event when the id exists, and "event not found" exactly when it does not |
| Event.EventService.Create | backend/internal/services/event/event.go:56-99 | non-empty geofence data that fails to parse is refused with the parser's error before anything is inserted; otherwise, unless the insert fails, the event is stored under the next id with exactly the given fields |
| Event.EventService.CheckIn | backend/internal/services/event/event.go:173-238 | GetByID's failure is passed on as it is; a failed guard returns its error; either way nothing is recorded; otherwise one new open row is appended, holding the user, the event, the check-in time and the request's coordinates, and that row is returned |
| Event.EventService.CheckOut | backend/internal/services/event/event.go:241-265 | every open row of the pair is closed now, its coordinates filled only where they were missing, and every other row is kept; when no row was open the error is "no active check-in found" |
| Event.EventService.NearbyEvents | backend/internal/services/event/event.go:306-328 | the loop keeps exactly the listed events with a circle geofence that parses and whose centre is within its radius plus the search radius in metres, in listing order |
| Event.EventService.GetNearbyEvents | backend/internal/services/event/event.go:295-341 | a failing listing passes its error through; otherwise the result is the page at the 64-bit limit and offset of the nearby events, including the slice panic for a negative or wrapping window |
| Event.OutsideGeofenceRefused | backend/internal/services/event/event.go:190-203 | during the event, a point outside a geofence that parses is refused with "user is not within event geofence" |
| Event.NearbyIsSubsequence | backend/internal/services/event/event.go:309-328 | an event is returned exactly when it is listed and near; the result is never longer than the listing |
| Event.PagesTile | backend/internal/services/event/event.go:330-340 | for a non-negative limit and offset whose doubled window does not wrap, both pages succeed and the page at offset followed by the page at offset + limit is the page of twice the size at offset |
| Event.PagePanics | backend/internal/services/event/event.go:330-340 | with at least two events, an offset of -1, a limit of -5, and a limit that wraps past the largest int each panic; a non-negative window that does not wrap never does |
| Event.CloseClosesRow | backend/internal/services/event/event.go:242-248 | a closed row is no longer open, keeps its check-in time, and keeps a latitude it already had |
| EventDetails.ErrorMessage | mobile-client/src/screens/EventDetailsScreen.tsx:67-80 | the first matching test picks the message: an error naming "400" gets the location message, else "500" the server message, else one of the two event-time texts its own message, and anything else, including an empty message, "Failed to check in" or "Failed to check out" |
| EventDetails.Position | mobile-client/src/screens/EventDetailsScreen.tsx:46-58 | the live fix when there is one; otherwise the rejection of the last-known read if it rejects, else the last known position if it is at most five minutes old, and no position at all otherwise |
| EventDetails.EventDetailsController.constructor | mobile-client/src/screens/EventDetailsScreen.tsx:13-17 | the screen starts not loading, not checked in, with the error modal hidden |
| EventDetails.EventDetailsController.ShowError | mobile-client/src/screens/EventDetailsScreen.tsx:15 | the error modal becomes visible with that message, and nothing else changes |
| EventDetails.EventDetailsController.HandleCheckInOut | mobile-client/src/screens/EventDetailsScreen.tsx:19-86 | a role other than user (or none) is stopped by the "Access Denied" alert before anything else; checked in, only the check-out call is made, and it toggles off and navigates on success; not checked in, the permission, services and position steps run in order: a rejected permission request, services check or last-known read shows the modal with that error's message, a refused permission its alert, services off and no position their modals, and checkedIn becomes true only when the check-in call resolves; past the gate, loading always ends off |
| EventDetails.EventDetailsController.CheckOutStep | mobile-client/src/screens/EventDetailsScreen.tsx:27-30 | the check-out call, then either the toggle off and the navigation, or the modal with the check-out error message |
| EventDetails.EventDetailsController.CheckInStep | mobile-client/src/screens/EventDetailsScreen.tsx:31-66 | a rejecting device call shows the catch's modal with its message; permission refused gives an alert; services off and no position each give their modal; with a position the check-in call carries exactly that position, and success toggles on and navigates |
| EventDetails.LocationReads | mobile-client/src/screens/EventDetailsScreen.tsx:32-53 | the device is asked for permission, then services, then the live fix, and for the last known position only when the live fix fails |
| EventDetails.OnlyFourHundredIsLocation | mobile-client/src/screens/EventDetailsScreen.tsx:71-72 | the location message is shown exactly for errors naming "400", even when they also name the end of the event |
| EventDetails.ApiErrorsNeverEventTime | mobile-client/src/screens/EventDetailsScreen.tsx:75-78 | an error raised by the API client ("API Error: <status>") never gets either event-time message |
| EventDetails.ThreeDigits | mobile-client/src/screens/EventDetailsScreen.tsx:71-73 | a three-digit status is written as its three decimal digits, so the 400 and 500 tests see them |
| EventDetails.ApiBadRequestMessage | mobile-client/src/screens/EventDetailsScreen.tsx:71-72 | a 400 from the API is shown as "You must be at the event location to check in" |
| EventDetails.ApiServerErrorMessage | mobile-client/src/screens/EventDetailsScreen.tsx:73-74 | a 500 from the API is shown as the server-error message |
| EventDetails.FallbackAgeLimit | mobile-client/src/screens/EventDetailsScreen.tsx:46-53 | a last known position exactly five minutes old is used and one a millisecond older is not; a live fix always wins, even when the last-known read would reject |
| EventsScreen.Filtered | mobile-client/src/screens/EventsScreen.tsx:52-56 | the kept events come from the list, and each has the lower-cased query in its lower-cased name, description or address |
| EventsScreen.FilterEvents | mobile-client/src/screens/EventsScreen.tsx:48-59 | an empty query shows every event unchanged |
| EventsScreen.FilteredExactly | mobile-client/src/screens/EventsScreen.tsx:52-56 | an event is shown exactly when it is listed and matches the query |
| EventsScreen.FilterSubsequence | mobile-client/src/screens/EventsScreen.tsx:48-59 | the shown list keeps the events' order: it is a subsequence of the loaded list |
| EventsScreen.FilteredSubsequence | mobile-client/src/screens/EventsScreen.tsx:52-56 | the filter's result embeds, in order, into the list it filters |
| EventsScreen.FilterIdempotent | mobile-client/src/screens/EventsScreen.tsx:48-59 | filtering the shown list again with the same query changes nothing |
| EventsScreen.FilteredIdempotent | mobile-client/src/screens/EventsScreen.tsx:52-56 | the filter applied twice with one query gives what it gives once |
| EventsScreen.StatusColor | mobile-client/src/screens/EventsScreen.tsx:70-77 | green exactly for "live", gray exactly for "ended", and blue for every other status, "upcoming" included |
| EventsScreen.StatusText | mobile-client/src/screens/EventsScreen.tsx:79-86 | a status other than live, upcoming and ended is shown as the generic event badge |
| EventsScreen.BadgeDistinct | mobile-client/src/screens/EventsScreen.tsx:70-86 | the badge text tells the three known statuses apart from each other and from any other status, and an unknown status gets the upcoming colour |
| EventsScreen.RolesExclusive | mobile-client/src/screens/EventsScreen.tsx:15-16 | no role is both the user and the brand flag, and a role other than "", user and brand is neither |
| Export.ExportOutcome | backend/internal/services/export.go:72-102 | the export completes exactly for a supported data type whose fetch succeeded and a csv or json format, with the URL https://exports.lynkr.com/<id>.<format>; every other case is "failed" with an empty URL |
| Export.WithStatus | backend/internal/services/export.go:297-300 | the status UPDATE keeps the number of rows |
| Export.Keys | backend/internal/services/export.go:273-276 | the header lists every key of the first record exactly once, in map iteration order |
| Export.ConvertToCSV | backend/internal/services/export.go:264-290 | no records give nothing; otherwise a header of the first record's keys and then one row per record, each with one field per header, the record's value printed with %v, or <nil> where the record lacks the key |
| Export.RowOf | backend/internal/services/export.go:281-284 | one record's row has one field per header, each the record's printed value under it |
| Export.FirstRowComplete | backend/internal/services/export.go:273-284 | under headers taken from a record's own keys, that record has a value in every column, so <nil> appears in its row only where it holds that very text |
| Export.ExportService.constructor | backend/internal/services/export.go:33-35 | a new service starts from an empty requests table |
| Export.ExportService.CreateExportRequest | backend/internal/services/export.go:37-66 | on success one "processing" row with id "export_<time>" and no file URL is inserted, and the request returned expires seven days after its creation; a failed insert reports "failed to create export request: …" and inserts nothing |
| Export.ExportService.ProcessExport | backend/internal/services/export.go:68-103 | the request's row gets exactly the status and URL that ExportOutcome gives for its data type, fetch and format |
| Export.WithStatusExactly | backend/internal/services/export.go:297-300 | only the named request's row changes, taking the new status and URL |
| Export.CreatedThenProcessed | backend/internal/services/export.go:37-103 | a request created and then exported ends "completed" with its URL exactly when the type, fetch and format allow, and "failed" with an empty URL otherwise; other rows are untouched |
| Feedback.CreatePoll | backend/internal/services/feedback.go:44-63 | it never fails: the poll "poll_<time>" has the question and the event, and has one option per text given, in order, the i-th with id "option_<i>", that text and no votes |
| Feedback.OptionIdsDistinct | backend/internal/services/feedback.go:54-60 | two options of one poll never share an id, and each starts with zero votes |
| Funnel.StageUsers | backend/internal/services/conversion_funnel.go:48-72 | the five counting queries fill one count per stage, a query that fails to scan leaving its 0 |
| Funnel.Roi | backend/internal/services/conversion_funnel.go:82-88 | without revenue the ROI is 0; otherwise it is the gain over the assumed $10,000 event cost as a percentage of that cost, so it is positive exactly when revenue exceeds the cost |
| Funnel.Rate | backend/internal/services/conversion_funnel.go:78 | a stage's rate is its users as a percentage of the attendance |
| Funnel.GetConversionFunnel | backend/internal/services/conversion_funnel.go:39-98 | the five stages come in the fixed order, each with its query's users and as many conversions; the total is the attendance; the rates are set only when the attendance is positive and stay 0 otherwise; revenue and ROI come from the purchase query |
| Funnel.AttendanceRateIsHundred | backend/internal/services/conversion_funnel.go:75-80 | with any attendance, the attendance stage's rate is exactly 100 |
| Funnel.RateAtMostHundred | backend/internal/services/conversion_funnel.go:78 | a stage with no more users than the attendance has a rate between 0 and 100 |
| Funnel.RoiBreakEven | backend/internal/services/conversion_funnel.go:84-88 | revenue equal to the event cost gives an ROI of 0, and twice the cost gives 100 |
| Funnel.ByTypeKeys | backend/internal/services/conversion_funnel.go:132-135 | the report has an entry for exactly the attribution types that scanned |
| Funnel.GetAttributionReport | backend/internal/services/conversion_funnel.go:100-156 | a failing query reports "failed to get attribution report: …"; otherwise each scanned type maps to its (last) row's purchases and revenue, and the totals are summed over the rows that scanned |
| Funnel.ByTypeEntries | backend/internal/services/conversion_funnel.go:109-135 | with one row per type, as GROUP BY gives, each type's entry is exactly its row's count and revenue |
| Funnel.SumsSplit | backend/internal/services/conversion_funnel.go:137-138 | the totals over rows split in two are the sums of the totals of the parts |
| Geofence.Validate | backend/pkg/geofencing/geofence.go:62-80 | decoded data is accepted exactly when it is a circle with its payload and a positive radius or a polygon with its payload and at least three points; each other case has its own error text, checked in the source's order |
| Geofence.ParseGeofenceData | backend/pkg/geofencing/geofence.go:51-83 | empty text is refused before decoding, a decoding error is passed through, and the decoded data is returned exactly when it passes the validation |
| Geofence.IsPointInGeofence | backend/pkg/geofencing/geofence.go:86-95 | a circle is answered by the circle test, a polygon by the polygon test, and any other type is never inside |
| Geofence.CreateCircleGeofence | backend/pkg/geofencing/geofence.go:137-153 | refused exactly when the radius is not positive; otherwise a circle geofence with the given event, name, centre and radius and no polygon |
| Geofence.CreatePolygonGeofence | backend/pkg/geofencing/geofence.go:156-171 | refused exactly when there are fewer than three points; otherwise a polygon geofence with the given event, name and points and no circle |
| Geofence.CreatedCircleParses | backend/pkg/geofencing/geofence.go:51-153 | a created circle passes the checks ParseGeofenceData applies, so it reads back unchanged from any encoding the decoder accepts |
| Geofence.CreatedPolygonParses | backend/pkg/geofencing/geofence.go:51-171 | a created polygon passes the checks ParseGeofenceData applies, so it reads back unchanged from any encoding the decoder accepts |
| Geofence.ParsedDataIsDispatchable | backend/pkg/geofencing/geofence.go:51-95 | parsed data always carries the payload its type needs, so the inside-test never dereferences a missing shape |
| Migrations.SortByName | backend/pkg/migrations/migrations.go:88-91 | the migrations end sorted by name and are a permutation of what was collected |
| Migrations.CollectMigrations | backend/pkg/migrations/migrations.go:76-86 | the loop collects, in listing order, one migration per non-directory ".sql" entry, named without the suffix and with the joined path |
| Migrations.FindMigrations | backend/pkg/migrations/migrations.go:70-94 | a failed directory read is returned as is; otherwise the result is sorted by name and holds exactly the collected migrations |
| Migrations.CandidateOrigin | backend/pkg/migrations/migrations.go:77-86 | every found migration comes from a non-directory ".sql" entry whose name is its name plus ".sql" |
| Migrations.CandidateComplete | backend/pkg/migrations/migrations.go:77-86 | every non-directory ".sql" entry of the listing is found |
| Migrations.UpSqlShape | backend/pkg/migrations/migrations.go:106-110 | the up part is a prefix of the file holding no down marker, followed by the marker or by nothing, and is the whole file when there is no marker |
| Migrations.ApplyError | backend/pkg/migrations/migrations.go:97-139 | a migration commits exactly when its file can be read and no database step fails; each failing step has its own error wrapping |
| Migrations.Migrator.constructor | backend/pkg/migrations/migrations.go:28-33 | a migrator over the given directory with nothing recorded or executed |
| Migrations.Migrator.GetAppliedMigrations | backend/pkg/migrations/migrations.go:49-67 | a failing query returns its error; otherwise the set holds exactly the names in the migrations table |
| Migrations.Migrator.ApplyMigration | backend/pkg/migrations/migrations.go:97-139 | in one transaction: on success the name is recorded and the up part of its file executed, on any error neither happens |
| Migrations.Migrator.Migrate | backend/pkg/migrations/migrations.go:142-172 | the table, query and listing errors are wrapped and change nothing; otherwise the pending migrations are applied in name order up to the first that fails, whose error is returned, and every migration before it is recorded and executed |
| Migrations.Migrator.ApplyPending | backend/pkg/migrations/migrations.go:160-171 | the apply loop skips recorded names and applies the rest in order up to the first failure, which ends the loop with its error |
| Migrations.PendingMembers | backend/pkg/migrations/migrations.go:161-162 | a migration is applied by the loop's plan exactly when it is found and its name is not yet recorded |
| PulseSurvey.Created | backend/internal/services/pulse_survey.go:95-107 | the inserted survey keeps the planned type and questions, is created at `now` and expires at `now` plus its delay plus 24 hours |
| PulseSurvey.DelayDays | backend/internal/services/pulse_survey.go:117-122 | the availability CASE gives a delay exactly for the types "24h", "72h" and "7d" (NULL otherwise) |
| PulseSurvey.PulseSurveyService.constructor | backend/internal/services/pulse_survey.go:49-51 | a service over empty survey and response tables |
| PulseSurvey.PulseSurveyService.ScheduleSurveys | backend/internal/services/pulse_survey.go:53-93 | the planned surveys are inserted in schedule order up to the first insert that fails, which returns an error naming that survey's type; the responses are untouched |
| PulseSurvey.PulseSurveyService.GetAvailableSurveys | backend/internal/services/pulse_survey.go:109-146 | a failing query returns its wrapped error; otherwise the surveys offered are the rows that scan and pass the availability rule, in table order, a row that fails to scan being skipped |
| PulseSurvey.PulseSurveyService.SubmitResponse | backend/internal/services/pulse_survey.go:148-162 | a failing insert returns its wrapped error and records nothing; otherwise one response row at `now` is appended |
| PulseSurvey.ScheduleShape | backend/internal/services/pulse_survey.go:54-83 | the schedule is "24h", "72h", "7d" with delays of 24, 72 and 168 hours, each survey asking questions "q1" and "q2" |
| PulseSurvey.ScheduledWindow | backend/internal/services/pulse_survey.go:95-123 | a scheduled survey is offered to an attendee who has not answered it exactly from the end of its delay until 24 hours later |
| PulseSurvey.AnsweredNotOffered | backend/internal/services/pulse_survey.go:116 | once a user's response is recorded, that survey is no longer offered to them |
| PulseSurvey.UnknownTypeNeverOffered | backend/internal/services/pulse_survey.go:117-122 | a survey of a type outside the schedule is never offered |
| PulseSurvey.OfferedExactly | backend/internal/services/pulse_survey.go:110-143 | an available row is always offered, and anything offered comes from an available row |
| RateLimit.FilterRecent | backend/internal/middleware/ratelimit.go:42-47 | the rebuilt list holds, in order, the client's instants strictly after the cutoff |
| RateLimit.RateLimiter.constructor | backend/internal/middleware/ratelimit.go:20-26 | a limiter with the given limit and window and no client recorded |
| RateLimit.RateLimiter.Handle | backend/internal/middleware/ratelimit.go:32-64 | the request is refused with 429, "Rate limit exceeded" and the window in seconds exactly when the client already has `limit` instants in the window; the client's list becomes its in-window instants, plus `now` at the end only when admitted; every other client's list is unchanged, and no list ever grows beyond the limit |
| RateLimit.InWindowMembers | backend/internal/middleware/ratelimit.go:43-45 | an instant is kept exactly when it was stored and is strictly after the cutoff |
| RateLimit.InWindowSorted | backend/internal/middleware/ratelimit.go:42-47 | filtering keeps a nondecreasing list nondecreasing |
| RateLimit.AdmittedStaysSorted | backend/internal/middleware/ratelimit.go:42-62 | with a clock that does not go backwards, a client's list stays nondecreasing after `now` is appended |
| RateLimit.QuietClientAdmitted | backend/internal/middleware/ratelimit.go:42-52 | with a positive limit, a client with no instant inside the window is admitted |
| RoleMiddleware.UserOnly | backend/internal/middleware/role_middleware.go:8-18 | the request passes exactly when the role is "user"; otherwise 403 "User access required" |
| RoleMiddleware.BrandOnly | backend/internal/middleware/role_middleware.go:20-30 | the request passes exactly when the role is "brand" or "admin"; otherwise 403 "Brand access required" |
| RoleMiddleware.UserOrBrand | backend/internal/middleware/role_middleware.go:32-42 | the request passes exactly when the role is "user" or "brand", so an admin is refused; otherwise 403 "Authentication required" |
| RoleMiddleware.GatesCompared | backend/internal/middleware/role_middleware.go:8-42 | whatever UserOnly admits UserOrBrand admits; an admin passes only BrandOnly; no role passes both UserOnly and BrandOnly; a request with no role passes none |
| Rewards.CalculateLevel | backend/internal/services/rewards.go:171-182 | level 1 below 100 points, 2 below 500, 3 below 1000, 4 below 2500 and 5 from 2500 on, always between 1 and 5 |
| Rewards.LevelMonotone | backend/internal/services/rewards.go:171-182 | more points never give a lower level |
| Rewards.QualityScore | backend/internal/services/rewards.go:109-121 | the score the method accumulates one condition at a time is the engagement score `Score` |
| Rewards.Score | backend/internal/services/rewards.go:109-121 | 10 for more than 100 views, 20 for more than 5 shares, 15 for more than 10 likes, so between 0 and 45, and above the reward threshold of 20 exactly when two of the three hold |
| Rewards.FindContent | backend/internal/services/rewards.go:97-104 | the row found has the asked id, is in the table and comes before every other row with that id; no row is found exactly when no row has that id |
| Rewards.Candidates | backend/internal/services/rewards.go:126-131 | the rows selected are content of the last day that has no reward yet |
| Rewards.QualityAwards | backend/internal/services/rewards.go:139-153 | every reward a pass awards is pending and worth more than 20 points |
| Rewards.RewardsService.constructor | backend/internal/services/rewards.go:37-39 | a service over the given content, with no rewards and no points |
| Rewards.RewardsService.AwardReward | backend/internal/services/rewards.go:41-69 | a failing insert returns its wrapped error and changes nothing; otherwise a "pending" reward with the given fields, id "reward_<now>" and time now is stored and returned, and the user's total is credited with its points unless that upsert fails, whose error is ignored |
| Rewards.RewardsService.UpdateUserPoints | backend/internal/services/rewards.go:158-169 | the user's total gains the points, starting from 0 for a user not yet in the table; every other total is unchanged |
| Rewards.RewardsService.GetUserRewards | backend/internal/services/rewards.go:71-93 | a failing query returns its wrapped error; otherwise the total is the sum of the user's delivered rewards only, the level is that total's level, and the badges are those read (none when their query fails) |
| Rewards.RewardsService.EvaluateContentQuality | backend/internal/services/rewards.go:95-122 | a failing query or scan returns its error wrapped as "failed to evaluate content quality: …", a missing row the wrapped no-rows error, and otherwise the row's quality score |
| Rewards.RewardsService.ProcessQualityRewards | backend/internal/services/rewards.go:124-156 | a failing query returns its wrapped error and changes nothing; otherwise the rewards gain exactly the quality awards of the last day's unrewarded content, each candidate evaluated, skipped when its evaluation fails, and rewarded with its score when above 20 and its insert succeeds, and the totals are credited with every award whose points upsert succeeds |
| Rewards.RewardsService.AwardCandidates | backend/internal/services/rewards.go:139-153 | the loop adds exactly the quality awards of the candidates, in order (a candidate whose evaluation fails adds none), and credits every award whose points upsert succeeds |
| Rewards.RewardsService.AwardQuality | backend/internal/services/rewards.go:145-152 | one candidate is rewarded exactly when its evaluation succeeds with a score above 20 and its insert succeeds, so a failed evaluation skips it; and the reward is credited unless its points upsert fails |
| Rewards.Credit | backend/internal/services/rewards.go:158-169 | the `user_points` upsert: the user gets a row holding their old total, or 0, plus the amount, and every other row is unchanged |
| Rewards.CreditedTotals | backend/internal/services/rewards.go:44-67 | after a pass each user's total has risen by exactly the points of their awards whose upsert succeeds; an award whose upsert fails stays stored and credits nothing |
| Rewards.PendingNotCounted | backend/internal/services/rewards.go:72-76 | a freshly awarded reward is pending and leaves the user's delivered total unchanged |
| Rewards.AwardsFromCandidates | backend/internal/services/rewards.go:139-153 | only candidates are awarded |
| Rewards.AwardedAreRewarded | backend/internal/services/rewards.go:130-151 | every content a pass awards is marked as rewarded afterwards |
| Rewards.FailedEvaluationSkipped | backend/internal/services/rewards.go:145-148 | no reward of a pass is for a content id whose evaluation fails |
| Rewards.SecondPassAwardsNothing | backend/internal/services/rewards.go:124-156 | running the pass again at the same instant awards nothing, so no content is rewarded twice |
| Sentiment.TokenRun | backend/internal/services/sentiment.go:212 | the run `[^\s]+` consumes stops exactly at the first `\s` character |
| Sentiment.Strip | backend/internal/services/sentiment.go:212-220 | removing matches never lengthens the text |
| Sentiment.StripLeavesNoTag | backend/internal/services/sentiment.go:216-220 | after mentions (hashtags) are removed, every '@' ('#') left is last or stands before whitespace, so no match of the pattern remains |
| Sentiment.Collapse | backend/internal/services/sentiment.go:223 | after `\s+` is replaced, every whitespace character left is a plain space |
| Sentiment.CollapseNoDoubleSpace | backend/internal/services/sentiment.go:223 | after `\s+` is replaced, no two whitespace characters stand side by side |
| Sentiment.CleanText | backend/internal/services/sentiment.go:210-226 | the cleaned text has no leading or trailing whitespace, no run of two whitespace characters, and only plain spaces as whitespace |
| Sentiment.Fields | backend/internal/services/sentiment.go:47 | every word is non-empty and holds no whitespace |
| Sentiment.BlankHasNoFields | backend/internal/services/sentiment.go:47 | a text of whitespace only has no words |
| Sentiment.Hits | backend/internal/services/sentiment.go:52-61 | a word adds at most one hit per keyword |
| Sentiment.Classified | backend/internal/services/sentiment.go:64-91 | with no keyword hit the score is 0 and the label "neutral"; otherwise the score is (pos−neg)/(pos+neg), between −1 and 1; the label is "positive" exactly when 10(pos−neg) > pos+neg, "negative" exactly when 10(pos−neg) < −(pos+neg), "neutral" otherwise; the magnitude is capped at 1 and is undefined (Go's 0/0) exactly for a text with no words |
| Sentiment.CountHits | backend/internal/services/sentiment.go:52-61 | the keyword loop counts each keyword the word contains as a substring once |
| Sentiment.CountWords | backend/internal/services/sentiment.go:51-62 | the word loop's counts are the positive and negative hits summed over all words |
| Sentiment.AnalyzeText | backend/internal/services/sentiment.go:40-92 | the result is the classification of the positive and negative hit totals over the words of the cleaned, lower-cased text |
| Sentiment.NoHitsIsNeutral | backend/internal/services/sentiment.go:73-75 | a text with no keyword at all has score 0 and label "neutral" |
| Sentiment.TotalSplit | backend/internal/services/sentiment.go:51-62 | words are counted independently, so the totals of two word lists add up |
| Sentiment.Distribution | backend/internal/services/sentiment.go:191-200 | the distribution always has the keys "positive", "negative" and "neutral" |
| Sentiment.GetEventSentimentSummary | backend/internal/services/sentiment.go:150-207 | a failing query returns its wrapped error; with no decodable result the summary is 0 analyses, average 0 and all three counts 0; otherwise the count of decoded results, their mean score and their label counts |
| Sentiment.DecodeRows | backend/internal/services/sentiment.go:164-175 | the rows that fail to scan or decode are skipped and the rest kept in order |
| Sentiment.Tally | backend/internal/services/sentiment.go:190-200 | the loop sums the scores and counts each label |
| Sentiment.DistributionSums | backend/internal/services/sentiment.go:190-206 | when every label is one of the three, the distribution has exactly those keys and its counts sum to the number of results |
| Sentiment.AnalyzedLabelsStandard | backend/internal/services/sentiment.go:73-85 | every analysis carries one of the labels "positive", "negative" or "neutral" |
| Usability.CalculateSeverity | backend/internal/ux/usability_tester.go:284-295 | with score = errorCount·(1 + criticalRate): "critical" exactly above 50, "high" exactly in (20, 50], "medium" exactly in (10, 20], "low" exactly at 10 or below |
| Usability.Rank | backend/internal/ux/usability_tester.go:287-294 | the four severities ranked from "low" (0) to "critical" (3) |
| Usability.SeverityMonotone | backend/internal/ux/usability_tester.go:285-294 | for a fixed non-negative rate, more errors never give a lower severity |
| Usability.ManyErrorsNotLow | backend/internal/ux/usability_tester.go:285-294 | with a non-negative rate, more than ten errors are never "low" and more than fifty are always "critical" |
| Usability.PainPoints | backend/internal/ux/usability_tester.go:264-279 | never more pain points than rows |
| Usability.IdentifyPainPoints | backend/internal/ux/usability_tester.go:244-282 | a failing query returns its error as is; otherwise one pain point per row that scans, in row order, each with its severity |
| Usability.PainPointsFromRows | backend/internal/ux/usability_tester.go:265-278 | every pain point carries the severity of its own counts and comes from a scanned row with the same fields |
| Usability.WindowDays | backend/internal/ux/usability_tester.go:117-127 | "24h", "7d" and "30d" select windows of 1, 7 and 30 days, and any other timeframe selects no filter |
| Usability.WindowsNested | backend/internal/ux/usability_tester.go:117-127 | what the day window counts the week window counts, and what the week counts the month counts; an unknown timeframe counts every row |
| SurveyScreen.UnansweredQuestions | mobile-client/src/screens/SurveyScreen.tsx:63-65 | the questions kept are questions of the survey with no answer or a blank one |
| SurveyScreen.AllAnswered | mobile-client/src/screens/SurveyScreen.tsx:63-67 | nothing is left unanswered exactly when every question has an answer that is not blank once trimmed |
| SurveyScreen.Without | mobile-client/src/screens/SurveyScreen.tsx:86 | the surveys kept are from the list and have another id |
| SurveyScreen.WithoutConcat | mobile-client/src/screens/SurveyScreen.tsx:86 | removal distributes over concatenation, so the surveys that stay keep their order |
| SurveyScreen.WithoutExactly | mobile-client/src/screens/SurveyScreen.tsx:86 | a survey stays exactly when it was listed and has another id |
| SurveyScreen.SurveyController.constructor | mobile-client/src/screens/SurveyScreen.tsx:6-9 | no surveys, none completed, none current, no answers |
| SurveyScreen.SurveyController.LoadAvailableSurveys | mobile-client/src/screens/SurveyScreen.tsx:15-45 | the list loaded, or the built-in sample survey when loading fails; nothing else changes |
| SurveyScreen.SurveyController.StartSurvey | mobile-client/src/screens/SurveyScreen.tsx:47-50 | the survey becomes current with no answers |
| SurveyScreen.SurveyController.UpdateResponse | mobile-client/src/screens/SurveyScreen.tsx:52-57 | one answer is set and every other answer is kept |
| SurveyScreen.SurveyController.SubmitSurvey | mobile-client/src/screens/SurveyScreen.tsx:60-98 | with no current survey the failure alert is shown; with an unanswered question, "Please answer all questions" and nothing sent; otherwise the answers are sent, and on success the survey is marked completed, removed from the list and the reward announced, while a failed submission leaves both lists unchanged |
| SurveyScreen.SurveyController.DismissSuccess | mobile-client/src/screens/SurveyScreen.tsx:88-93 | the success alert's OK returns to the list with no answers |
| SurveyScreen.FreshSurveyUnanswered | mobile-client/src/screens/SurveyScreen.tsx:47-70 | a survey just started with any question cannot be submitted before an answer is given |
| BrandSurveyScreen.Edited | mobile-client/src/screens/BrandSurveyScreen.tsx:111 | the named field of the question takes the new value and the others are kept |
| BrandSurveyScreen.BrandSurveyController.constructor | mobile-client/src/screens/BrandSurveyScreen.tsx:7-16 | the empty form with reward "50" and one default question, the modal closed, no alerts and no requests |
| BrandSurveyScreen.BrandSurveyController.CreateSurvey | mobile-client/src/screens/BrandSurveyScreen.tsx:50-77 | without a title or an event, "Please fill in required fields" and nothing sent; otherwise the survey is sent with the parsed reward, and on success the modal closes and the form is reset, while on failure the form is kept |
| BrandSurveyScreen.BrandSurveyController.AddQuestion | mobile-client/src/screens/BrandSurveyScreen.tsx:102-107 | one default multiple-choice question with a single empty option is appended and the existing questions are unchanged |
| BrandSurveyScreen.BrandSurveyController.UpdateQuestion | mobile-client/src/screens/BrandSurveyScreen.tsx:109-113 | only the question at the index is edited, in the named field; every other question and form field is unchanged |
| BrandSurveyScreen.BrandSurveyController.AddOption | mobile-client/src/screens/BrandSurveyScreen.tsx:115-119 | only the question at the index gains one trailing empty option; everything else is unchanged |
| BrandSurveyScreen.RewardPointsParsed | mobile-client/src/screens/BrandSurveyScreen.tsx:14-61 | the default reward text is sent as 50, and an empty one as NaN |
| CreateContentScreen.ParseTags | mobile-client/src/screens/CreateContentScreen.tsx:103-109 | one tag per comma-separated segment, in order, the i-th built from the i-th segment |
| CreateContentScreen.TagShape | mobile-client/src/screens/CreateContentScreen.tsx:103-109 | the i-th tag has id "tag_i", type "category", brand "1" and the screen's event, and a name without commas or surrounding whitespace |
| CreateContentScreen.EmptyTagsOneTag | mobile-client/src/screens/CreateContentScreen.tsx:103 | empty tag text still gives one tag, with an empty name |
| CreateContentScreen.EmptyTagText | mobile-client/src/screens/CreateContentScreen.tsx:103-105 | empty text has one (empty) segment, which gives the tag "tag_0" with an empty name |
| CreateContentScreen.PermissionsOf | mobile-client/src/screens/CreateContentScreen.tsx:113-119 | the permissions carry the four toggles and an expiry of 30 days |
| CreateContentScreen.Outcome | mobile-client/src/screens/CreateContentScreen.tsx:140-151 | the result screen carries success exactly when nothing failed, with the success or the retry message, and the screen's event |
| CreateContentScreen.ValidationError | mobile-client/src/screens/CreateContentScreen.tsx:80-93 | an image is asked for first; the checks pass exactly when there is an image, a caption that is not blank and a token |
| CreateContentScreen.CreateContentController.constructor | mobile-client/src/screens/CreateContentScreen.tsx:44-53 | empty caption and tags, brand access, modification and sharing on and commercial use off, no image, not loading |
| CreateContentScreen.CreateContentController.SubmitContent | mobile-client/src/screens/CreateContentScreen.tsx:79-156 | a failed check shows its alert and sends nothing; otherwise, for the form with the parsed tags, the permissions and the original image URI, a data: URI's payload is handed to base64ToFile; when that write rejects nothing is uploaded and the failure screen follows, otherwise the form is uploaded and the result screen reports whether the upload rejected; loading ends false |
| CreateContentScreen.CreateContentController.Send | mobile-client/src/screens/CreateContentScreen.tsx:95-155 | the upload step: a data: URI is converted first, a rejected write skips the upload and reports failure, and otherwise the form is sent as given and the result reports the upload's outcome |
| Slices.ContentSlice.constructor | mobile-client/src/store/slices/contentSlice.ts:18-21 | no content, not loading |
| Slices.ContentSlice.SetContent | mobile-client/src/store/slices/contentSlice.ts:27-29 | the list is replaced and loading is unchanged |
| Slices.ContentSlice.AddContent | mobile-client/src/store/slices/contentSlice.ts:30-32 | the item is put first, the previous list follows unchanged, and loading is unchanged |
| Slices.ContentSlice.SetLoading | mobile-client/src/store/slices/contentSlice.ts:33-35 | loading takes the value and the list is unchanged |
| Slices.EventsSlice.constructor | mobile-client/src/store/slices/eventsSlice.ts:23-27 | no events, no current event, not loading |
| Slices.EventsSlice.SetEvents | mobile-client/src/store/slices/eventsSlice.ts:33-35 | the list is replaced; the current event and loading are unchanged |
| Slices.EventsSlice.SetCurrentEvent | mobile-client/src/store/slices/eventsSlice.ts:36-38 | the event becomes current; the list and loading are unchanged |
| Slices.EventsSlice.SetLoading | mobile-client/src/store/slices/eventsSlice.ts:39-41 | loading takes the value; the list and the current event are unchanged |
| AuthService.AuthStore.constructor | brand-portal/src/services/AuthService.ts:21-23 | the store holds exactly the given entries, and nothing has redirected the browser |
| AuthService.AuthStore.SetItem | brand-portal/src/services/AuthService.ts:29 | one key is set to the text and every other entry is kept |
| AuthService.AuthStore.Login | brand-portal/src/services/AuthService.ts:25-33 | a failed call rejects with its error and stores nothing; otherwise the token and the user are stored under their keys and the user returned, so getCurrentUser returns that user whatever JSON.parse would do with other text, and the session counts as authenticated unless the token is empty (an absent token is stored as "undefined") |
| AuthService.AuthStore.Logout | brand-portal/src/services/AuthService.ts:35-38 | both keys are removed and every other entry is kept, so no one is authenticated and there is no current user |
| AuthService.AuthStore.GetToken | brand-portal/src/services/AuthService.ts:40-42 | the stored token exactly when one is stored |
| AuthService.AuthStore.GetCurrentUser | brand-portal/src/services/AuthService.ts:44-47 | no user for a missing or empty entry; the stored user for the JSON that login wrote; for any other text what JSON.parse yields, so "null" gives no user and another user's JSON that user, and malformed text the parse error |
| AuthService.AuthStore.IsAuthenticated | brand-portal/src/services/AuthService.ts:49-51 | authenticated exactly when a non-empty token is stored |
| AuthService.AuthStore.WithAuthorization | brand-portal/src/services/AuthService.ts:54-60 | with a stored non-empty token the bearer header is set; otherwise the headers are unchanged |
| AuthService.AuthStore.OnResponseError | brand-portal/src/services/AuthService.ts:62-71 | the error is always passed on; a 401 logs out and sends the browser to /login, and any other status changes nothing |
| Strings.Split | mobile-client/src/screens/CreateContentScreen.tsx:103 | `split` on one character gives one more part than the text has separators, and no part holds a separator |
| Strings.SplitJoin | mobile-client/src/screens/CreateContentScreen.tsx:103 | joining the parts with the separator gives back the text |
| Strings.TrimSuffix | backend/pkg/migrations/migrations.go:83 | with the suffix present, the result followed by the suffix is the name; otherwise the name is unchanged |
| Strings.TrimEmptyIffBlank | mobile-client/src/screens/SurveyScreen.tsx:64 | a text trims to nothing exactly when all its characters are whitespace |
| Strings.ParseIntOfNat | mobile-client/src/screens/BrandSurveyScreen.tsx:61 | `parseInt` reads back the decimal text of any natural number |
| Strings.NatToStringInjective | backend/internal/services/feedback.go:54-60 | different numbers have different decimal texts, so numbered ids never collide |
| Strings.ToLowerIdempotent | backend/internal/security/audit.go:206 | lower-casing twice is lower-casing once |
| Strings.LexTotal | backend/pkg/migrations/migrations.go:89-91 | Go's string `<` is a strict total order: irreflexive, asymmetric, and any two different names compare one way |
| Strings.GreatestExists | backend/pkg/privacy/anonymizer.go:149-155 | every non-empty set of keys has one that sorts after all the others |
| Strings.Greatest | backend/pkg/privacy/anonymizer.go:149-155 | the key returned is in the set and sorts after every other key of it |
| Strings.ParseUnsignedFloat | mobile-client/src/screens/DiscountCodesScreen.tsx:43 | `parseFloat` finds no number (NaN) exactly when the text after the sign neither starts with a digit nor with "." and a digit, or it is "Infinity"; a number read without a sign is never negative |
| Strings.ParseFloatOfNat | mobile-client/src/screens/DiscountCodesScreen.tsx:43 | `parseFloat` reads back the decimal text of any natural number as that number |

## Left out

- I/O is outside the model: SQL text, query planning, driver behaviour, file reads, `localStorage`, axios, `fetch`, and the Expo location, image-picker and file-system APIs. Each appears only as an input (a table, a listing, a response, or an optional error).
- Concurrency and locking are not modelled: the cache's cleanup goroutine and ticker, every mutex, and `go processExport`. The cleanup sweep is modelled as one pass at a given instant, and an export is processed by an explicit call.
- Floating point is not modelled. Ratios, coordinates, radii and scores are exact reals, so NaN and rounding are absent. In particular a NaN radius, which Go's `<= 0` test lets through, is not represented.
- Haversine distance and ray casting are parameters. So are `AnonymizeLocation`'s truncation, SHA-256 user ids, `crypto/rand` and JSON or CSV byte encodings.
- Rendering, navigation, modals, styles and the screens' hard-coded mock lists are left out. BrandSurveyScreen's `loadSurveys` and `viewSurveyAnalytics` are mock data. `formatDate` is presentation.
- Some operations in core files are left out as plumbing outside the decision logic:
  - In feedback.go: `SubmitPollVote`, `SubmitSliderFeedback` and `GetEventFeedbackSummary`, which are single SQL statements or SQL aggregates.
  - In conversion_funnel.go: `TrackConversion`, a single insert.
  - In sentiment.go: `AnalyzeContent` and `GetContentSentiment`, which store or read one row.
  - In pulse_survey.go: `GetSurveyByID` and `GetSurveyAnalytics`, a single read and an SQL aggregate.
  - In export.go: the `export*Data` queries, `convertToJSON` and `GetExportStatus`.
  - In ai_tagging.go: `storeResults` and `GetProductAnalytics`.
  - In event.go: `List` and `GetAttendees`.
  - In audit.go: `RunSecurityScan`, its checks, `LogSecurityEvent` and `GetSecurityEvents`.
  - In usability_tester.go: `StartSession`, `TrackAction`, `TrackError`, `EndSession`, `GetHeatmapData`, `GetUserJourney` and the metric queries of `GetUsabilityMetrics`. Only its timeframe mapping is kept.
  - In api.ts: the endpoint wrappers other than `uploadContent` and `updateContentPermissions`, which differ only in path and verb.
  - In EventsScreen.tsx: `loadEvents` and `handleCheckIn`.
  - In DiscountCodesScreen.tsx: `validateCode` and `formatDate`. `loadCodes`' `response.codes \|\| response \|\| []` is modelled as the list received.
- Strings are sequences of characters. Go's byte-indexed string operations agree with this only on ASCII text.
- Strings.ToLower: lower-cases ASCII letters only, while Go's `strings.ToLower` and JavaScript's `toLowerCase` are Unicode-aware.
- Audit.CheckRateLimit: tests plain containment of the endpoint. SQL `LIKE` would also treat `%` and `_` in the endpoint as wildcards and ignore ASCII case.
- Audit.ValidateInput: the regular expressions are modelled as literal pieces separated by `.*` gaps, where `.` excludes a newline. This is the only shape the pattern list uses.
- Anonymizer.AnonymizeData: Go's shallow copy also rewrites a location map the caller still holds. The model changes only the result.
- Discount.DiscountService.GenerateCode: uses one `now` for both the id and `created_at`. Go reads the clock twice.
- Discount.DiscountService.RedeemCode: uses one `now` for the redemption id and its timestamps. Go reads the clock twice (discount.go:95 and :109).
- AttendanceService.AttendanceService.CheckIn: uses one `now` for the check-in time and `created_at`. Go reads the clock twice in one statement (attendance_service.go:34).
- Rewards.RewardsService.AwardReward: uses one `now` for the reward id and `created_at`. Go reads the clock twice (rewards.go:42 and :49).
- Rewards.RewardsService.AwardCandidates: a candidate row that fails to scan (rewards.go:141-143) is skipped, just as a failed evaluation is. The model has no separate input for it; setting `evalError` for that content id gives the same pass.
- Rewards.RewardsService.ProcessQualityRewards: the whole pass uses one `now`, so every reward it creates has the id "reward_<now>" and the same `created_at`. In Go each AwardReward call reads the clock again (rewards.go:42, :49), so the ids and times differ. The same holds for Rewards.QualityReward.
- Export.ExportService.CreateExportRequest: uses one `now` for the request id and its timestamps. Go reads the clock twice (export.go:38 and :45).
- PulseSurvey.PulseSurveyService.ScheduleSurveys: uses one `now` for every survey's id, expiry and `created_at`. Go reads the clock three times for each survey (pulse_survey.go:96, :98 and :105).
- Strings.ParseFloat: keeps the decimal exact. JavaScript rounds it to the nearest double and turns a value too large for a double into Infinity, which JSON.stringify sends as null.
- Anonymizer.BoolField: folds only ASCII letters, the Kelvin sign and the long s. Go's decoder also equates other Unicode case variants, and those keys are not modelled as matching.
- Anonymizer.GetPrivacySettings: `Value` can hold neither NaN nor an infinite number, nor arrays. With NaN or an infinity json.Marshal fails and the defaults stay, and an array value, like any value of the wrong type, leaves its field unchanged.
- Migrations.PathJoin: does not apply `filepath.Clean`. A directory ending in "/" gives "dir//x.sql" where Go gives "dir/x.sql".
- Migrations.ReadError: every failed read is treated as a missing file. Other I/O errors are not modelled.
- Api.ApiService.Request: a rejection of `fetch` itself (a network failure) or of `response.json()` (a body that is not JSON) is not modelled (api.ts:40, :46). The model has only the non-OK status error and the decoded body of an OK response.
- PulseSurvey.PulseSurveyService.GetAvailableSurveys: lists a survey once, in table order. The SQL JOIN would repeat it for every attendance row the user has for its event, and SQL promises no order.
- Migrations.SortByName: states a sorted permutation. `sort.Slice` is not stable, so the relative order of two migrations with the same name is not fixed by the source either.
- EventDetails.Position: Expo's `maxAge` is taken as "a last known fix at most 300000 ms old".
- BrandSurveyScreen.BrandSurveyController.UpdateQuestion: requires an existing index. For an index out of range JavaScript would write a new, sparse entry.
- BrandSurveyScreen.BrandSurveyController.AddOption: requires an existing index. For an index out of range JavaScript throws inside the handler.
- BrandSurveyScreen.BrandSurveyController.AddOption: works on values. The source pushes onto the question object it shares with the previous form state, and that aliasing is not modelled.
- CreateContentScreen.CreateContentController.SubmitContent: records what `base64ToFile` is asked to write, not the file itself. The converted URI is unused in the source.
- Export.ExportService.ProcessExport: the file content is printed in the source and is not kept. The status update's error is ignored, as in the source.

## Findings

| source | as written | input that shows it | evidently intended | confidence | as-written member | corrected member |
|---|---|---|---|---|---|---|
| backend/internal/security/audit.go:200-206 | the SQL patterns `'.*OR.*'`, `".*OR.*"`, `UNION.*SELECT` and `DROP.*TABLE` are written in upper case but tested against the lower-cased input, so they can never match | `' OR '1'='1` is accepted | the patterns match whatever the input's case, so the probe is rejected | not executed | Audit.ValidateInput, Audit.SqlProbeAccepted, Audit.UppercasePatternsDead | Audit.ValidateInputIntended, Audit.SqlProbeRejectedWhenIntended, Audit.IntendedIsStricter |
| mobile-client/src/services/api.ts:139-144 | the endpoint `user/v1/content/<id>/permissions` has no leading "/" and repeats the role segment the base URL already adds | role "user", content id "7": the URL ends in `/user/v1user/v1/content/7/permissions` | `/content/<id>/permissions` under the role's base URL | not executed | Api.ApiService.UpdateContentPermissions, Api.PermissionsUrlDoubled | Api.ApiService.UpdateContentPermissionsIntended, Api.IntendedPermissionsUrl |
