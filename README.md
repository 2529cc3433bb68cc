# rn-psychometrics decision logic in Dafny

This project models the self-contained decision logic of the rn-psychometrics
React Native app (a psychometric quiz app) and proves properties of it. The
pieces are:

- **Report transformation** (`ReportTransformer`). This covers:
  - the ten block transformers;
  - the score-to-level bands;
  - the palette, tag, dimension and stage lookups;
  - the map-then-filter that keeps the known blocks;
  - the test-type id/key table.
- **Verification-code entry** (`VerifyScreen`). Six boxes and a focus index,
  driven by box presses, digit input and Backspace. The full code is
  submitted once every box holds a digit.
- **Date picker** (`DatePicker`). This covers:
  - the year, month and day columns bounded by a minimum and a maximum date;
  - the change of the temporary date when a column reports a value;
  - the clamp into [minimum, maximum];
  - each column's snap to its last item.
- **Login form** (`LoginForm`). This covers:
  - the saved-account list read from the cache;
  - the case-insensitive e-mail filter and the dropdown flag;
  - the focus, blur and selection handlers;
  - the submit guard;
  - the cache merge after a login.
- **HTTP client decisions** (`Http`). This covers:
  - the global configuration update;
  - the business-code gate on successful responses;
  - the classification of failed requests;
  - the error detail built from any thrown value;
  - the response-shape check;
  - one request end to end, with the transport's outcome as a parameter.
- **Colour grid** (`ColorChoice`): the flattening of colour groups, the 1-based
  selection and the single highlight.
- **Common utilities** (`Common`): the image-proxy URL rule and the random
  alphanumeric key. The random draw is a nondeterministic choice of index.
- **Recommendation card** (`TodayRecommend`). This covers:
  - the icon number parsed from an image path;
  - the avatar stack;
  - the price labels;
  - the participant count;
  - the route parameter.

`Strings` holds the JavaScript string operations the modules rely on. These
are `includes`, ASCII `toLowerCase`, the digit filter, `split` on one
character, `toString` of integers and `Number` on decimal text. `Wrappers`
holds `Option` and `Result`.

Form follows the source:

- The verification screen is a class whose handlers update its `code` and
  `focusIndex` fields.
- The date picker, login form and HTTP client keep their state in classes.
  Their pure parts are functions.
- Loops become methods with invariants: the filter's `reduce` and the key
  generator's `for`.
- `createErrorDetail` fills its record field by field.
- The transformers, the colour grid and the recommendation card are pure
  functions.

## Model

| member | source | states |
|---|---|---|
| Common.ImgProxy | utils/common.ts:157-161 | A missing or empty URL gives "". A URL containing "http" is returned unchanged. Any other URL gets the image host prepended, and an unset host reads as "undefined". In every case the URL is a suffix of the result. |
| Common.HostText | utils/common.ts:160 | The image host as concatenated: its value, or "undefined" when unset. |
| Common.ImgProxyIdempotent | utils/common.ts:157-161 | When the host itself contains "http", proxying an already proxied URL changes nothing. |
| Common.ImgProxyUnsetHostNotIdempotent | utils/common.ts:160 | With the host variable unset, a second proxying of a relative path prefixes "undefined" again, so the rule is not idempotent then. |
| Common.AlphabetIsAlphanumeric | utils/common.ts:91-92 | The key alphabet has 62 characters, all ASCII letters or digits. |
| Common.GenerateRandomKey | utils/common.ts:90-101 | The key has exactly `length` characters (none for a negative length), each drawn from the 62-character alphabet. |
| Common.GenerateRandomIV | utils/common.ts:107-109 | The IV has exactly 16 characters, all alphanumeric. |
| Strings.Lower | components/LoginForm.tsx:193 | `toLowerCase` keeps the length and maps each ASCII capital to its small letter and every other character to itself. |
| Strings.Contains | utils/common.ts:159 | `includes`: the text occurs at some position. |
| Strings.DigitsOnly | app/user/verify/index.tsx:47 | Removing non-digits leaves only digits, never more characters than the input, and leaves an all-digit input unchanged. |
| Strings.DigitsOnlyEmpty | app/user/verify/index.tsx:47-48 | The filtered text is empty exactly when the input has no digit. |
| Strings.Split | components/home/TodayRecommend.tsx:32 | `split` on one character always yields at least one piece. `JoinSplit` and `SplitAtFirst` state the pieces. |
| Strings.Join | app/user/verify/index.tsx:76 | `join` with a separator between pieces. `JoinSplit` states it undoes `Split`. |
| Strings.JoinSplit | components/home/TodayRecommend.tsx:32 | Joining the pieces of `split(sep)` with `sep` gives back the original text. |
| Strings.SplitAtFirst | components/home/TodayRecommend.tsx:32 | Text before the first separator is the first piece, and the rest is split on its own. |
| Strings.NumberValue | components/home/TodayRecommend.tsx:32 | `Number` of empty text is 0 and of a digit string a non-negative integer; `DecimalRoundTrip` states it inverts `DecimalString`. |
| Strings.DecimalString | components/home/TodayRecommend.tsx:169 | `toString` gives non-empty text: digits for a non-negative number, a minus sign then digits for a negative one. |
| Strings.DecimalRoundTrip | components/home/TodayRecommend.tsx:169 | `Number(n.toString())` is `n` for every integer. |
| ReportTransformer.ColorByIndex | utils/reportTransformer.ts:194-197 | The colour is always one of the five palette entries, and index i < 5 gets entry i. |
| ReportTransformer.ColorByIndexPeriodic | utils/reportTransformer.ts:194-197 | The palette colour repeats with period 5. |
| ReportTransformer.TagColor | utils/reportTransformer.ts:171-179 | A configured tag gets its colour; any other tag gets "#96CEB4". |
| ReportTransformer.DimensionLabel | utils/reportTransformer.ts:182-191 | A configured dimension gets its label; any other dimension key is its own label. |
| ReportTransformer.StageDescription | utils/reportTransformer.ts:200-209 | A configured stage gets its description; any other stage gets "". |
| ReportTransformer.ResultIcon | utils/reportTransformer.ts:167-169 | The icon is null exactly when the result key is empty; otherwise it is the proxied key. |
| ReportTransformer.CalculateLevel | utils/reportTransformer.ts:211-217 | S exactly for values ≥ 90, A for [80, 90), B for [70, 80), C for [60, 70), D below 60. |
| ReportTransformer.CalculateLevelMonotone | utils/reportTransformer.ts:211-217 | A higher value never gets a lower level. |
| ReportTransformer.TransformMatchingResult | utils/reportTransformer.ts:59-66 | The view keeps the result key, score and description, and its icon follows `getResultIcon`. |
| ReportTransformer.TransformKeywordTags | utils/reportTransformer.ts:69-76 | One tag per input tag, in order, each coloured by `getTagColor`. |
| ReportTransformer.TransformRecommendations | utils/reportTransformer.ts:88-95 | One suggestion per input, in order, numbered 1..n. |
| ReportTransformer.TransformMultiDimensional | utils/reportTransformer.ts:98-107 | One entry per dimension, in order. Entry i has score i (undefined past the scores), palette colour i and the dimension's label. |
| ReportTransformer.TransformRadar | utils/reportTransformer.ts:110-119 | One entry per dimension, in order. Entry i has the dimension as label, score i as value (undefined past the scores) and palette colour i. The trend is up exactly when score i exists and exceeds 15. |
| ReportTransformer.RadarTrend | utils/reportTransformer.ts:116 | The trend is up exactly for a score above 15; a missing score compares false and gives down. |
| ReportTransformer.TransformBadges | utils/reportTransformer.ts:122-129 | One badge view per badge, in order, carrying its label and description. |
| ReportTransformer.TransformGrowthPath | utils/reportTransformer.ts:132-141 | Stage i is completed exactly when i < ⌊n/2⌋ and current exactly when i = ⌊n/2⌋. Each stage has its step's title and description. |
| ReportTransformer.GrowthPathCounts | utils/reportTransformer.ts:132-141 | Exactly ⌊n/2⌋ stages are completed. Exactly one stage is current when n > 0, none when n = 0. No stage is both. |
| ReportTransformer.TransformTextProgress | utils/reportTransformer.ts:155-163 | One section per paragraph, in order, numbered 1..n, every one completed. |
| ReportTransformer.TransformComponent | utils/reportTransformer.ts:224-279 | A view is produced exactly for the ten known block types, with the view type each maps to; any other type gives null. |
| ReportTransformer.MapComponents | utils/reportTransformer.ts:223-279 | The `map` gives one optional view per server component, in order: entry i is the transform of component i. |
| ReportTransformer.FilterPresent | utils/reportTransformer.ts:280 | `.filter(Boolean)` never lengthens the list. |
| ReportTransformer.FilterPresentMembers | utils/reportTransformer.ts:280 | A view is kept exactly when it was present: nothing is lost and nothing is added. |
| ReportTransformer.KnownComponents | utils/reportTransformer.ts:220-288 | The server components whose block type is one of the ten known ones, in order. `TransformTestReportKeepsKnown` relates the report to it. |
| ReportTransformer.TransformTestReport | utils/reportTransformer.ts:220-288 | The report copies `test_id`, `test_name` and `has_access` unchanged. |
| ReportTransformer.TransformTestReportKeepsKnown | utils/reportTransformer.ts:220-288 | The report holds exactly the components of known block types, in their original order, each transformed by its own transformer. All others are dropped. |
| ReportTransformer.FindKeyById | utils/reportTransformer.ts:324-326 | A key that is found comes from a list entry with that id. |
| ReportTransformer.FindIdByKey | utils/reportTransformer.ts:328-330 | An id that is found comes from a list entry with that key. |
| ReportTransformer.TestTypeKey | utils/reportTransformer.ts:324-326 | `getTestTypeKey` looks the id up in the type table. `TestTypeRoundTrip` states its results. |
| ReportTransformer.TestTypeId | utils/reportTransformer.ts:328-330 | `getTestTypeId` looks the key up in the type table. `TestTypeKeyRoundTrip` states its results. |
| ReportTransformer.TypeListShape | utils/reportTransformer.ts:295-320 | The type table has six entries with ids 1..6 and pairwise distinct keys. |
| ReportTransformer.TestTypeRoundTrip | utils/reportTransformer.ts:295-330 | `getTestTypeKey` finds a key exactly for ids 1..6, and `getTestTypeId` maps that key back to the id. |
| ReportTransformer.TestTypeKeyRoundTrip | utils/reportTransformer.ts:295-330 | Each of the six keys maps to its id, which maps back to the key. |
| VerifyScreen.InitialEntry | app/user/verify/index.tsx:33-34 | Six empty boxes with the focus on the first. |
| VerifyScreen.PressBox | app/user/verify/index.tsx:39-42 | A box press moves the focus to the pressed box and leaves the code unchanged. |
| VerifyScreen.TypeText | app/user/verify/index.tsx:45-58 | Input without digits changes nothing. Otherwise the focused box gets the last digit and every other box is unchanged. The focus moves right unless it is on the last box. The state stays well formed. |
| VerifyScreen.PressKey | app/user/verify/index.tsx:61-72 | Backspace empties the focused box, leaves the others unchanged and moves the focus left unless it is on the first box. Any other key changes nothing. |
| VerifyScreen.JoinFullBoxes | app/user/verify/index.tsx:76 | Joining one-character boxes gives a text of the same length whose character i is box i's digit. |
| VerifyScreen.JoinCode | app/user/verify/index.tsx:76 | `code.join("")`: the boxes concatenated in order. `JoinFullBoxes` states the result for full boxes. |
| VerifyScreen.SubmittedCode | app/user/verify/index.tsx:114-119 | A code is submitted exactly when all six boxes are non-empty. It is six digits, box i's digit at position i. |
| VerifyScreen.SixDigitsSubmit | app/user/verify/index.tsx:45-58 | Typing six digits from the initial state fills the boxes in order, leaves the focus on the last box and submits exactly those digits. |
| VerifyScreen.Step | app/user/verify/index.tsx:39-72 | Any screen event keeps six boxes, each empty or one digit, and the focus within 0..5. |
| VerifyScreen.Run | app/user/verify/index.tsx:33-72 | Any sequence of screen events keeps the code and focus well formed. |
| VerifyScreen.CodeEntry.constructor | app/user/verify/index.tsx:33-34 | The screen starts in the initial state. |
| VerifyScreen.CodeEntry.HandleBoxPress | app/user/verify/index.tsx:39-42 | The fields take the `PressBox` transition. |
| VerifyScreen.CodeEntry.HandleCodeChange | app/user/verify/index.tsx:45-58 | The fields take the `TypeText` transition. |
| VerifyScreen.CodeEntry.HandleKeyPress | app/user/verify/index.tsx:61-72 | The fields take the `PressKey` transition, copying the code before clearing the box. |
| DatePicker.DaysInMonth | components/ui/DatePicker.tsx:175-179 | A month has 28 to 31 days, and February has 29 exactly in Gregorian leap years. |
| DatePicker.SetFullYear | components/ui/DatePicker.tsx:169-170 | Changing the year gives a valid date in the new year. It keeps month and day when the day exists in that year. The only day that does not is 29 February in a common year, which rolls over to 1 March. |
| DatePicker.LeapDayYearChange | components/ui/DatePicker.tsx:170 | 29 February 2024 moved to 2023 becomes 1 March 2023. |
| DatePicker.SetMonthKeepingDay | components/ui/DatePicker.tsx:171-180 | A month change keeps the year, sets the month and sets the day to the smaller of the old day and the new month's length. It never overflows. |
| DatePicker.ChangedDate | components/ui/DatePicker.tsx:167-183 | Changing any column of a valid date gives a valid date. |
| DatePicker.ClampDate | components/ui/DatePicker.tsx:185-191 | Below the minimum becomes the minimum and above the maximum becomes the maximum. A date in range is kept. With minimum ≤ maximum, the result is in range. |
| DatePicker.RangeInclusive | components/ui/DatePicker.tsx:204-207 | The range has hi − lo + 1 consecutive values starting at lo, or none when hi < lo. |
| DatePicker.RangeMembers | components/ui/DatePicker.tsx:204-207 | A value is in the range exactly when lo ≤ value ≤ hi. |
| DatePicker.Years | components/ui/DatePicker.tsx:201-208 | The year column: every year from the minimum's to the maximum's. `YearsExact` states its contents. |
| DatePicker.Months | components/ui/DatePicker.tsx:210-226 | The month column: from the minimum's month in the minimum's year (else 1) to the maximum's month in the maximum's year (else 12). `MonthsExact` and `MonthsWithinYear` state its contents. |
| DatePicker.Days | components/ui/DatePicker.tsx:228-253 | The day column: the month's days, cut at the minimum's day in the minimum's month and at the maximum's day in the maximum's month. `DaysExact` and `DaysWithinMonth` state its contents. |
| DatePicker.YearsExact | components/ui/DatePicker.tsx:201-208 | The year column lists exactly the years from the minimum's to the maximum's, with maxYear − minYear + 1 entries. |
| DatePicker.MonthsExact | components/ui/DatePicker.tsx:210-226 | Within the permitted years, the month column lists exactly the months 1..12 between the minimum's month and the maximum's month. |
| DatePicker.MonthsWithinYear | components/ui/DatePicker.tsx:210-226 | The month column only lists months 1..12. |
| DatePicker.DaysExact | components/ui/DatePicker.tsx:228-253 | For a permitted month, the day column lists exactly the days of that month that lie in [minimum, maximum]. |
| DatePicker.DaysWithinMonth | components/ui/DatePicker.tsx:228-253 | The day column only lists days the month has. |
| DatePicker.SyncColumn | components/ui/DatePicker.tsx:64-79 | While scrolling, nothing happens. Otherwise a listed value is kept, and an unlisted one makes the column select and report its last item, or undefined for an empty column. |
| DatePicker.SyncAfterSnap | components/ui/DatePicker.tsx:71-76 | After a snap, syncing with the reported value keeps it. |
| DatePicker.ScrollEndValue | components/ui/DatePicker.tsx:87-97 | A value is reported exactly when the snapped index is within the list, and it is the item at that index. |
| DatePicker.InRangeDateIsListed | components/ui/DatePicker.tsx:263-285 | For a temporary date in [minimum, maximum], all three columns list its year, month and day, so none snaps. |
| DatePicker.ColumnsNonEmpty | components/ui/DatePicker.tsx:201-253 | With minimum ≤ maximum, no column is ever empty, so a snap never reports undefined. |
| DatePicker.DatePickerState.constructor | components/ui/DatePicker.tsx:150-155 | The temporary date starts at `value` or today. The bounds default to 1970-01-01 and 2100-12-31. |
| DatePicker.DatePickerState.Reopen | components/ui/DatePicker.tsx:158-163 | On opening, the temporary date restarts from `value` or today. |
| DatePicker.DatePickerState.HandleDateChange | components/ui/DatePicker.tsx:165-194 | The new temporary date is the changed date clamped into [minimum, maximum]. It stays valid and is in range whenever minimum ≤ maximum. |
| LoginForm.Matching | components/LoginForm.tsx:192-199 | An account is in the filtered list exactly when its lower-cased e-mail contains the lower-cased query. Its record is unchanged. |
| LoginForm.MatchingIsSubMap | components/LoginForm.tsx:192-199 | The filtered list is a sub-map of the saved list and no larger. |
| LoginForm.MatchingEmptyQuery | components/LoginForm.tsx:186-190 | Filtering with the empty query keeps the whole list, which is the list the empty-e-mail branch shows. |
| LoginForm.MatchesItself | components/LoginForm.tsx:193 | An e-mail always matches itself. |
| LoginForm.MatchesQuery | components/LoginForm.tsx:193 | An e-mail matches when its lower-cased text contains the lower-cased query. |
| LoginForm.FilterUsers | components/LoginForm.tsx:192-199 | The `reduce` over the entries builds exactly the filtered list. |
| LoginForm.LoadUserList | components/LoginForm.tsx:151-177 | With nothing stored, nothing changes. A failed storage read counts as nothing stored, because `getLocalCache` turns it into null. A parsed object becomes the list. A parsed non-object, or text that `JSON.parse` rejects, clears the cache and empties the list. |
| LoginForm.SavedEntry | components/LoginForm.tsx:116-120 | The saved entry is the user info with `email` and `password` set to the login's values. |
| LoginForm.MergeCache | components/LoginForm.tsx:105-131 | A parsed object keeps every other account and gets the full entry for the logged-in e-mail. With nothing stored, or a parsed non-object, the cache becomes that one entry. When `JSON.parse` threw on the stored text, the cache becomes the e-mail mapped to the bare user info. |
| LoginForm.SavedAccountOffered | components/LoginForm.tsx:105-131 | After a login, the next visit lists the account and the filter on its e-mail shows it. Selecting it fills in the same password, unless the stored text did not parse; then the entry is the bare user info. |
| LoginForm.SubmitResult | components/LoginForm.tsx:87-149 | Nothing happens without the agreement. A login call that threw ends with no token, no field message and no cache write. A login reply whose code is not 200 is rejected with its message. A 200 login stores the token. It becomes a full login, writing `MergeCache`, exactly when the user-info reply also has code 200; a failed or thrown user-info call leaves only the token. |
| LoginForm.SubmitDisabled | components/LoginForm.tsx:377-379 | The button is disabled while loading, with an empty e-mail or password, or without the agreement. |
| LoginForm.EnabledSubmitIsAgreed | components/LoginForm.tsx:377-379 | For every agreement state: an enabled button means not loading, both fields filled and the agreement ticked, so a press never stops at the agreement guard, whatever the service replies. |
| LoginForm.LoginFormState.constructor | components/LoginForm.tsx:50-59 | The form starts with empty lists, closed dropdown, nothing agreed or loading, and empty fields. |
| LoginForm.LoginFormState.LoadUsers | components/LoginForm.tsx:151-177 | The saved list takes the `LoadUserList` result, and keeps its old value when nothing is stored. The cache is cleared exactly as `LoadUserList` says. Nothing else changes. |
| LoginForm.LoginFormState.FilterEffect | components/LoginForm.tsx:180-212 | While selecting, nothing is recomputed. An empty e-mail shows the whole list and leaves the dropdown as it is. Otherwise the filtered list is shown and the dropdown is open exactly when it is non-empty. |
| LoginForm.LoginFormState.HandleEmailSelect | components/LoginForm.tsx:214-225 | Selecting fills both fields, marks the selection and closes the dropdown. |
| LoginForm.LoginFormState.OnFocusChange | components/LoginForm.tsx:316-321 | Gaining focus with saved accounts opens the dropdown and ends the selection; otherwise nothing changes. |
| LoginForm.LoginFormState.HandleBlur | components/LoginForm.tsx:322-324 | Blur closes the dropdown. |
| LoginForm.LoginFormState.ToggleAgreement | components/LoginForm.tsx:386 | The checkbox flips the agreement. |
| LoginForm.LoginFormState.OnSubmit | components/LoginForm.tsx:87-149 | The outcome is `SubmitResult`, including the thrown login of lines 144-148. A rejection puts the reply's message on both fields, and no other outcome touches them. Loading is over after any submit that passed the guard. |
| Http.MergeConfig | utils/http/request.ts:92-98 | Supplied fields replace the global ones and omitted fields stay. |
| Http.MergeConfigIdentityAndIdempotent | utils/http/request.ts:92-98 | An empty update changes nothing, and repeating an update changes nothing more. |
| Http.MergeConfigSequential | utils/http/request.ts:92-98 | Two updates in a row equal one update with the later fields winning. |
| Http.InitialConfig | utils/http/request.ts:47-55 | The global configuration at start-up: the environment's base URL, interception on, success code 200, timeout 20000. The constructor row states it. |
| Http.HttpClient.constructor | utils/http/request.ts:47-83 | The initial global configuration: intercept on, success code 200, timeout 20000, base URL from the environment. The axios defaults hold the same base URL and timeout plus the JSON and platform headers. |
| Http.HttpClient.UpdateConfig | utils/http/request.ts:92-108 | The global configuration is merged. The axios base URL changes only for a non-empty URL and the timeout only for a non-zero one. Supplied headers are merged in. |
| Http.AllowedCodes | utils/http/request.ts:201-202 | The allowed codes are `businessCodes` when supplied, even an empty list, and otherwise only the success code. |
| Http.ShouldIntercept | utils/http/request.ts:198-200 | Interception is the request's own flag when given, else the global one. |
| Http.Prop | utils/http/request.ts:221 | A property read throws exactly on null. On an object it yields the field exactly when present, and otherwise undefined. |
| Http.SafeProp | utils/http/request.ts:230 | A `?.` read never throws, and agrees with the plain read on anything but null. |
| Http.ResponseGate | utils/http/request.ts:191-215 | With interception off, every response passes. With it on, a body whose code is not allowed becomes a BUSINESS error carrying that code, message and data, and a null body throws. |
| Http.InterceptOffNeverRejects | utils/http/request.ts:198-212 | An explicit `interceptError: false` never rejects. |
| Http.EmptyBusinessCodesRejectAll | utils/http/request.ts:202-212 | An explicitly empty `businessCodes` lets nothing through while interception is on. |
| Http.DefaultAllowsOnlySuccessCode | utils/http/request.ts:201-212 | Without `businessCodes`, a numeric body code passes exactly when it equals the success code. |
| Http.NoResponseError | utils/http/request.ts:248-252 | A failure without a response is TIMEOUT exactly for `ECONNABORTED`, else NETWORK. |
| Http.ClassifyFailureAsWritten | utils/http/request.ts:216-255 | The interceptor as written throws exactly for a response with a null body and a status other than 401. |
| Http.ClassifyFailure | utils/http/request.ts:216-255 | With a response, the error is AUTH exactly when the status is 401 or the body code is 10104, BUSINESS otherwise, with the status as code. The token is cleared exactly for AUTH. Without a response, see `NoResponseError`. |
| Http.ClassifyFailureAgrees | utils/http/request.ts:216-255 | Wherever the code as written does not throw, it classifies as `ClassifyFailure` does. |
| Http.NullBodyServerError | utils/http/request.ts:221 | A 500 response with a null body makes the code as written throw, where BUSINESS with code 500 is intended. |
| Http.ErrorDetailFor | utils/http/request.ts:121-151 | An HttpError keeps its type, code and data. An axios error with a response is AUTH for status 401 or 10104, else BUSINESS, with the status and body. Without a response it is TIMEOUT or NETWORK. Anything else is UNKNOWN. The message, URL and timestamp are kept. |
| Http.CreateErrorDetail | utils/http/request.ts:121-151 | Filling the record field by field yields `ErrorDetailFor`. |
| Http.DecodeResponse | utils/http/request.ts:379-389 | A body decodes exactly when it is an object with a numeric `code`, a string `message` and a `data` key, and the decoded fields are those values. |
| Http.ResponseRoundTrip | utils/http/request.ts:379-389 | Every API response encodes to a valid body that decodes back to it. |
| Http.NonObjectsInvalid | utils/http/request.ts:379-389 | null, arrays and other non-objects are never valid responses. |
| Http.IsValidResponse | utils/http/request.ts:379-389 | A truthy object with a numeric `code`, a string `message` and a `data` key. `DecodeResponse` and `NonObjectsInvalid` state its consequences. |
| Http.Fetch | utils/http/request.ts:281-303 | A request succeeds exactly when the gate passes the response and its body is a valid response, and it then returns the body decoded. A gate-passed invalid body is a BUSINESS error "无效的响应数据格式". A response the gate rejects is a BUSINESS error with the body's code, and a null body at the gate is UNKNOWN. A failed request's error type is `ClassifyFailure`, the corrected interceptor of the finding below. |
| Http.DefaultFetchOutcome | utils/http/request.ts:281-303 | With the default configuration, a well-formed body with code 200 is delivered as is. Any other code is a BUSINESS error with that code. |
| ColorChoice.GroupCells | components/test/start/ColorChoice.tsx:31-35 | A group gives one cell per colour, in strength order, carrying its group and strength index. |
| ColorChoice.Flatten | components/test/start/ColorChoice.tsx:29-37 | The `reduce` appending each group's cells in group order. `FlattenLength`, `FlattenAt` and `FlattenEntry` state its contents. |
| ColorChoice.Total | components/test/start/ColorChoice.tsx:29-37 | The number of colours in all groups, the grid size. `FlattenLength` relates it to the grid. |
| ColorChoice.FlattenLength | components/test/start/ColorChoice.tsx:29-37 | The grid has as many boxes as all groups have colours. |
| ColorChoice.FlattenAt | components/test/start/ColorChoice.tsx:29-37 | Colour s of group g is box (colours of groups before g) + s, with that colour and those indices. |
| ColorChoice.FlattenEntry | components/test/start/ColorChoice.tsx:29-37 | Every box is one colour of one group, at exactly the position its indices determine. |
| ColorChoice.CellKeysDistinct | components/test/start/ColorChoice.tsx:46-48 | No two boxes share a (group, strength) key. |
| ColorChoice.OnSelect | components/test/start/ColorChoice.tsx:59 | Pressing box k reports k + 1, a value in [1, total]. |
| ColorChoice.AtMostOneHighlighted | components/test/start/ColorChoice.tsx:54-56 | At most one box is highlighted, and none for a missing or 0 selection. |
| ColorChoice.Highlighted | components/test/start/ColorChoice.tsx:54-56 | Box i is highlighted exactly when the selection is present, non-zero and equals i + 1. |
| ColorChoice.SelectThenHighlight | components/test/start/ColorChoice.tsx:54-59 | After pressing a box, exactly that box is highlighted. |
| TodayRecommend.IconIndex | components/home/TodayRecommend.tsx:32 | Fewer than three `/`-pieces is an error. Otherwise the result is Ok exactly when the text before the first dot of the third piece is a number, and then it is that number minus one; a non-number is a parse error, never an out-of-range one. |
| TodayRecommend.IconFor | components/home/TodayRecommend.tsx:32 | An icon is found exactly when the index is within the icon list. Errors of the index are passed on. |
| TodayRecommend.IconIndexOfPath | components/home/TodayRecommend.tsx:32 | An image stored as `dir/dir/<n>.<ext>` with 1 ≤ n ≤ icon count picks icon n − 1. |
| TodayRecommend.IconIndexWithoutSlash | components/home/TodayRecommend.tsx:32 | A path without `/` has no icon. |
| TodayRecommend.AvatarStack | components/home/TodayRecommend.tsx:63-75 | At most the first three avatars are shown. Avatar i gets zIndex 3 − i, overlaps its neighbour exactly when i > 0, and has the proxied URI. No list means no avatars. |
| TodayRecommend.AvatarStackOrder | components/home/TodayRecommend.tsx:63-75 | Each avatar is above the ones after it, and all z-indices lie in 1..3. |
| TodayRecommend.Price | components/home/TodayRecommend.tsx:88-100 | The free label is shown exactly when the discount price is 0. The struck-through original price is shown exactly when it is not 0. |
| TodayRecommend.FreeXorOriginal | components/home/TodayRecommend.tsx:88-100 | The free label and the original price never appear together, and one of them always does. |
| TodayRecommend.ParticipantsCount | components/home/TodayRecommend.tsx:78 | The count text is empty exactly when the total is missing or 0. |
| TodayRecommend.RouteParam | components/home/TodayRecommend.tsx:166-171 | The route parameter is the id's decimal text. |
| TodayRecommend.RouteParamRoundTrip | components/home/TodayRecommend.tsx:166-171 | Reading the parameter back with `Number` gives the card's id. |

## Left out

- Storage, encryption and the network are outside the model. This covers:
  - `getLocalCache`, `setLocalCache` and `clearLocalCache`;
  - `encrypt` and `decrypt`;
  - SecureStore and AsyncStorage;
  - NetInfo, axios itself and the event bus.

  A cache read is a `CacheRead` value, and a request's outcome is a `Transport` value. Token clearing is the `clearToken` flag on the AUTH branch.
- The request interceptor is outside the model, because it is I/O: the network check and the token header.
- `sanitizeRequestData` is outside the model: it is a JSON round trip.
- Clocks and randomness become parameters. `Date.now()` and `new Date()` are passed in, and `Math.random()` is a nondeterministic index.
- Floating point is outside the model:
  - `completionRate` in the visual dashboard;
  - `px2wp` and `px2hp`;
  - the scroll offset rounding in `handleScrollEnd`, which is modelled from the snapped index on;
  - `formatCurrency` and `formatCompact`, which the model does not include. Prices are integer cents and the count is the number to format.
- The date picker ignores time of day. Comparing with the bounds by timestamp selects the same calendar date as comparing by date.
- `handleConfirm` and `onClose` of the date picker only hand `tempDate` to the caller, so they are not modelled.
- The login form's other dismissals are not modelled separately. The native tap outside and the web mousedown outside both close the dropdown exactly as `HandleBlur` does.
- The login form's `catch` branches around the filter and the e-mail selection are not modelled: nothing in them can throw in the model.
- Strings.Lower: folds only ASCII letters. JavaScript's full Unicode case mapping is not modelled.
- Strings.NumberValue: reads only optionally signed decimal digits. `Number` also accepts surrounding whitespace, hexadecimal, exponents and fractions; these give None (NaN) here.
- Common.GenerateRandomKey: always takes an explicit length, so its default of 32 is not modelled.
- ReportTransformer.TransformComponent: requires each known block's payload to have that block's shape. The source relies on the server for this and does not check it.
- ReportTransformer.TagColor: the lookup tables are modelled as maps. Keys inherited from `Object.prototype` are not looked up.
- Http.MessageOr: a truthy message that is not a string falls back to the default text. The source would convert it to a string.
- Http.Fetch: a failed request is classified by the corrected `ClassifyFailure`, so a 500 response with a null body is BUSINESS here where the code as written gives UNKNOWN (see the finding).
- Http.MergeConfig: a field supplied with the value `undefined` counts as not supplied. The source spread would overwrite the field with `undefined`.
- The `onError` callback of the global configuration is left out (it is I/O).
- JSON numbers are integers in this model, so floating-point and NaN codes are not represented.
- LoginForm.MergeCache: a cache that parses to a string or an array would spread its characters or elements into the new cache. The model covers objects, null, numbers and booleans.
- LoginForm.LoadUserList: an array passes the source's `typeof` check and is modelled only as an object.
- `utils/http/types.ts` is not part of this model. The error types and configuration fields are taken from their use in `request.ts`.
- The dead `!code` check in the verify screen's `onFocus` is not modelled: an array is never falsy.

## Findings

| source | as written | input that shows it | evidently intended | confidence | as-written member | corrected member |
|---|---|---|---|---|---|---|
| utils/http/request.ts:221 | The error interceptor reads `apiResponse.code` without `?.` when the status is not 401. A null body throws a TypeError inside the interceptor, so the caller gets an UNKNOWN error detail. | An error response with status 500 and body `null` | Read the code with `?.`, as lines 230, 234, 241 and 245 already do. The failure is then BUSINESS with code 500 and the default server-error message. | not executed | Http.ClassifyFailureAsWritten | Http.ClassifyFailure |
