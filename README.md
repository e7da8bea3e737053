# pouncert core, modelled in Dafny

This project models the logic at the heart of the pouncert React application:

- **Typing practice page.** A catalogue of course, topic and subtopic selects a list of exercises. Each keystroke recomputes an error count and a rounded accuracy against the exercise text. Buttons and keyboard shortcuts step through the exercises.
- **Hash credentials.** Sign-up validates an email and a phone number, checks that the pinning service answers, hashes `email:phone:time`, uploads a record, and only then stores the hash in `localStorage` under `authHash`. Login accepts a hash only when it equals the stored one. The auth page switches between the two forms.
- **Small UI state machines:**
  - the expand/collapse maps of the two roadmap pages;
  - the Redux slice of the crypto pages;
  - the dashboard's pagination and search box;
  - the weather page's search box and dark-mode switch.
- **Pure helpers:**
  - the wind-direction compass label;
  - the CoinGecko request paths;
  - the description excerpt, trending list, and candle time labels of the dashboard.

Code that changes state in place is modelled as Dafny classes whose methods carry `modifies` clauses. This covers the page state, `localStorage`, the forms, the roadmap view and the Redux store. Pure expressions are modelled as functions, with lemmas about them.

Each class method is specified against a function of its inputs and old state, such as `Register`, `SubmitOutcome`, `Reduce`, `Toggled` or `Accuracy`. The lemmas state the page's promises about those functions.

The JavaScript behaviours the code relies on are written out (module `JsText`):

- the truncating `%`;
- `Math.round` as the floor of x + 1/2;
- `undefined` inside a template string renders as "undefined";
- `String.prototype.trim` over the ECMAScript whitespace set;
- truthiness of a missing map key and of a start time of 0.

Files: `wrappers.dfy`, `js_text.dfy`, `typing_practice.dfy`, `auth_hash.dfy`, `auth_storage.dfy`, `auth_schema.dfy`, `signup_form.dfy`, `login_form.dfy`, `auth_page.dfy`, `weather.dfy`, `roadmap.dfy`, `crypto_slice.dfy`, `crypto_api.dfy`, `crypto_dashboard.dfy`.

## Model

| member | source | states |
|---|---|---|
| TypingPractice.FindTopic | src/pages/TypingPractice.jsx:660-662 | a found topic is in the list and has the id; none found means no topic has it |
| TypingPractice.FindSubtopic | src/pages/TypingPractice.jsx:663-665 | a found subtopic is in the list and has the name; none found means no subtopic has it |
| TypingPractice.FindTopicFirst | src/pages/TypingPractice.jsx:660-662 | when topic i is the first with the id, `find` returns topic i, whatever follows it |
| TypingPractice.FindSubtopicFirst | src/pages/TypingPractice.jsx:663-665 | when subtopic k is the first with the name, `find` returns subtopic k, whatever follows it |
| TypingPractice.ExercisesFor | src/pages/TypingPractice.jsx:659-665 | an empty course, topic or subtopic selection gives no exercises |
| TypingPractice.ExercisesForSource | src/pages/TypingPractice.jsx:659-665 | a non-empty list is the exercises of a subtopic with the selected name, in a topic with the selected id, of the selected course |
| TypingPractice.ExercisesForFirstMatch | src/pages/TypingPractice.jsx:659-665 | a non-empty selection that names a course, a topic id and a subtopic name in the catalogue yields the exercises of the first matching subtopic of the first matching topic |
| TypingPractice.ExpectedText | src/pages/TypingPractice.jsx:683 | `substring(0, n)` is a prefix of the example of length min(n, length) |
| TypingPractice.Mismatch | src/pages/TypingPractice.jsx:686 | a position is an error exactly when `value[i] !== expectedText[i]`, with reading past the end of the expected text giving undefined |
| TypingPractice.ErrorsUpTo | src/pages/TypingPractice.jsx:684-689 | the error count over k characters never exceeds k |
| TypingPractice.Errors | src/pages/TypingPractice.jsx:683-689 | the errors never exceed the number of typed characters |
| TypingPractice.RoundPercent | src/pages/TypingPractice.jsx:690 | `Math.round(100*part/whole)` is the integer r with 2·whole·r ≤ 200·part + whole < 2·whole·(r+1), and it lies in 0..100 |
| TypingPractice.Accuracy | src/pages/TypingPractice.jsx:690-691 | accuracy is always in 0..100, and empty input gives 100 (the NaN fallback) |
| TypingPractice.MeasureAccuracy | src/pages/TypingPractice.jsx:683-691 | the figure the handler computes by its loop is `Accuracy` of the input against the example |
| TypingPractice.CountErrors | src/pages/TypingPractice.jsx:684-689 | the counting loop returns exactly the number of mismatching positions |
| TypingPractice.ErrorsUpToZero | src/pages/TypingPractice.jsx:685-689 | no errors among the first k characters if and only if none of them mismatches |
| TypingPractice.ErrorsUpToBeyond | src/pages/TypingPractice.jsx:683-689 | every character beyond the expected text counts as an error |
| TypingPractice.PrefixIsAccurate | src/pages/TypingPractice.jsx:683-691 | typing a prefix of the example gives 0 errors and accuracy 100 |
| TypingPractice.OverflowCountsAsErrors | src/pages/TypingPractice.jsx:683-689 | errors are at least the number of characters typed past the example's end |
| TypingPractice.FullAccuracyIff | src/pages/TypingPractice.jsx:690-691 | for non-empty input, accuracy 100 if and only if 200·errors ≤ length (99.5 rounds up) |
| TypingPractice.RoundPercentFull | src/pages/TypingPractice.jsx:690 | the rounded share is 100 if and only if 200·e ≤ n |
| TypingPractice.NextIndex | src/pages/TypingPractice.jsx:718-725 | Next moves one forward unless the last exercise is showing |
| TypingPractice.PrevIndex | src/pages/TypingPractice.jsx:727-732 | Previous moves one back unless the first exercise is showing |
| TypingPractice.NavigationStaysInRange | src/pages/TypingPractice.jsx:718-732 | both moves keep a valid index within the exercise list |
| TypingPractice.PrevUndoesNext | src/pages/TypingPractice.jsx:718-732 | Previous undoes a Next that moved |
| TypingPractice.KeyDownAction | src/pages/TypingPractice.jsx:734-740 | Ctrl+Enter means Next if and only if Enter with Ctrl; Shift+Enter means Previous if and only if Enter with Shift and without Ctrl |
| TypingPractice.TypingSession.CurrentExercise | src/pages/TypingPractice.jsx:666 | there is a current exercise exactly when the exercise list is non-empty |
| TypingPractice.TypingSession.constructor | src/pages/TypingPractice.jsx:647-655 | the initial state: javascript course, nothing else chosen, accuracy 100, not started, not complete |
| TypingPractice.TypingSession.HandleInputChange | src/pages/TypingPractice.jsx:674-705 | the input is stored; the start time is set on the first non-empty input and never overwritten while set; accuracy is `Accuracy` of the input; completion is set only when the input equals the example |
| TypingPractice.TypingSession.Reset | src/pages/TypingPractice.jsx:707-716 | input, start time, wpm, accuracy and completion return to their initial values; the selection and index stay |
| TypingPractice.TypingSession.NextExercise | src/pages/TypingPractice.jsx:718-725 | moves forward and resets the attempt, or reports the last exercise and changes nothing |
| TypingPractice.TypingSession.PrevExercise | src/pages/TypingPractice.jsx:727-732 | moves back and resets the attempt, or changes nothing on the first exercise |
| TypingPractice.TypingSession.HandleKeyDown | src/pages/TypingPractice.jsx:734-740 | the shortcut's move is applied to the index; when the index moves the attempt is reset, and when it does not (other keys, or no exercise to move to) input, start time, wpm, accuracy and completion are unchanged; the selection stays |
| TypingPractice.TypingSession.SelectCourse | src/pages/TypingPractice.jsx:756-760 | choosing a course clears topic and subtopic, leaving no exercises |
| TypingPractice.TypingSession.SelectTopic | src/pages/TypingPractice.jsx:776-779 | choosing a topic clears the subtopic, leaving no exercises |
| TypingPractice.TypingSession.SelectSubtopic | src/pages/TypingPractice.jsx:796-800 | choosing a subtopic goes to the first exercise with a fresh attempt |
| JsText.NatDecimal | src/lib/auth/api.js:28 | the rendering of a timestamp is a non-empty string of digits |
| JsText.ParseNatDecimal | src/lib/auth/api.js:28 | reading the rendered digits back gives the number |
| JsText.Decimal | src/app/features/crypto/cryptoApi.jsx:18-19 | a rendered integer is non-empty, all digits when non-negative, and starts with '-' when negative |
| JsText.DecimalInjective | src/app/features/crypto/cryptoApi.jsx:18-19 | different integers render differently |
| JsText.TemplateText | src/app/features/crypto/cryptoApi.jsx:22-23 | a string renders as itself and `undefined` as "undefined" |
| JsText.TrimSlice | src/pages/Weather.jsx:47-48 | `trim()` leaves the slice between the leading and the trailing whitespace of the text |
| JsText.TrimEnds | src/pages/Weather.jsx:47-48 | what `trim()` leaves neither starts nor ends with whitespace |
| JsText.TrimEmpty | src/pages/Weather.jsx:47 | trimming leaves nothing exactly when the text is all whitespace |
| JsText.TrimIdempotent | src/pages/Weather.jsx:47-48 | trimming twice is trimming once |
| JsText.JsRemainder | src/pages/Weather.jsx:103-104 | `%` agrees with the mathematical remainder on non-negative operands and takes the dividend's sign otherwise |
| JsText.SplitAtFirstJoin | src/lib/auth/api.js:28 | the colon join can be undone: splitting `a + ":" + b` at its first colon gives back a and b when a has no colon (the splitter is a proof device; the page never splits) |
| AuthHash.UtilsPreimage | src/lib/auth/utils.js:4 | the preimage is email and phone run together, then ":", then the time's digits |
| AuthHash.GenerateHash | src/lib/auth/utils.js:3-6 | the hash depends on email and phone only through their concatenation |
| AuthHash.UtilsPreimageCollides | src/lib/auth/utils.js:3-6 | as written, ("ab","c") and ("a","bc") give the same preimage and so the same hash |
| AuthHash.ApiPreimage | src/lib/auth/api.js:28 | the preimage is the email, ":", the phone, ":", then the time's digits, each at a fixed position |
| AuthHash.GenerateAndSendHash | src/lib/auth/api.js:27-35 | the api.js hash is the utils.js hash with a colon appended to the email |
| AuthHash.ApiPreimageRoundTrip | src/lib/auth/api.js:27-35 | the colon-separated preimage gives back email, phone and time when neither field contains ':' |
| AuthHash.ApiPreimageInjective | src/lib/auth/api.js:28 | for colon-free fields, equal preimages mean equal email, phone and time |
| AuthHash.ApiPreimageSeparates | src/lib/auth/api.js:28 | the pair that collides in utils.js stays apart in api.js |
| AuthHash.GatewayUrl | src/lib/auth/api.js:15 | the URL is the gateway base, then "/ipfs/", then the content id |
| AuthHash.UploadUserData | src/lib/auth/api.js:4-25 | on success it returns the content id with its gateway URL; a failure is rethrown unchanged |
| AuthStorage.Slot | src/lib/auth/utils.js:12-14 | `getItem("authHash")` is the stored value, or null when absent |
| AuthStorage.StoreThenValidate | src/lib/auth/utils.js:8-14 | after storing h, validation accepts exactly h |
| AuthStorage.LastStoreWins | src/lib/auth/utils.js:8-10 | a second store overwrites the first |
| AuthStorage.StoreKeepsOtherKeys | src/lib/auth/utils.js:8-10 | storing the hash touches no other key |
| AuthStorage.EmptySlotRejectsAll | src/lib/auth/utils.js:12-14 | with no stored hash, no string validates |
| AuthStorage.LocalStorage.SetItem | src/lib/auth/utils.js:9 | writes the key when storage is usable; otherwise nothing changes and the exception is returned |
| AuthStorage.LocalStorage.GetItem | src/lib/auth/utils.js:13 | returns the value or null, or the exception when storage is unusable |
| AuthStorage.StoreAuthHash | src/lib/auth/utils.js:8-10 | the slot becomes the hash, or the exception propagates with storage unchanged |
| AuthStorage.ValidateAuthHash | src/lib/auth/utils.js:12-14 | the result is whether the slot equals the hash; storage is not modified |
| AuthSchema.SignUpErrors | src/lib/auth/schema.js:3-6 | no issues if and only if the email check passes and the phone has ≥ 10 characters; each failing field contributes its own message |
| AuthSchema.LoginErrors | src/lib/auth/schema.js:8-10 | no issues if and only if the hash has ≥ 64 characters; otherwise the one "Invalid authenitication hash" issue |
| AuthSchema.PhoneDigitsNotChecked | src/lib/auth/schema.js:5 | ten letters pass the phone check, which checks only length |
| AuthSchema.LoginAcceptsLongStrings | src/lib/auth/schema.js:9 | the login check counts characters only and does not trim: 64 spaces pass, 63 hex digits do not |
| SignUpForm.Register | src/components/auth/SignUpForm.jsx:20-58 | a submission is rejected exactly when the schema reports errors, and then has those errors, no effects and unchanged storage; a failure leaves storage unchanged |
| SignUpForm.RootMessage | src/components/auth/SignUpForm.jsx:53-56 | the root error is the exception's message, or the default text when that is empty |
| SignUpForm.NoConnectionNoEffects | src/components/auth/SignUpForm.jsx:23-26 | a failed probe aborts before hashing, uploading or storing, with the fixed message |
| SignUpForm.UploadFailureKeepsSlot | src/components/auth/SignUpForm.jsx:42-56 | a failed upload leaves storage unchanged and reports no success |
| SignUpForm.RegisteredIff | src/components/auth/SignUpForm.jsx:20-58 | success if and only if the schema passes, the probe succeeds, the upload succeeds and storage is usable; then the slot holds the api.js hash and the upload's URL is reported; otherwise storage is unchanged |
| SignUpForm.StoreFollowsUpload | src/components/auth/SignUpForm.jsx:32-45 | the hash is stored only after the upload succeeded, and the uploaded record carries that hash with version 1.0.0 |
| SignUpForm.FailureSetsOneRootError | src/components/auth/SignUpForm.jsx:51-56 | every failure sets exactly one non-empty root error, as the last step; success is reported only on success |
| SignUpForm.SignUpForm.Submit | src/components/auth/SignUpForm.jsx:20-58 | the submission's outcome, steps and storage are those of `Register`; the root error is the failure's message after a failure and cleared otherwise; success clears the form |
| SignUpForm.SignUpForm.Fill | src/components/auth/SignUpForm.jsx:68-80 | typing sets the two field values |
| LoginForm.FormData | src/components/auth/LoginForm.jsx:36-42 | the form data has the single field "hash" |
| LoginForm.Field | src/components/auth/LoginForm.jsx:25 | reading an unregistered field gives undefined |
| LoginForm.HashVerified | src/components/auth/LoginForm.jsx:14-22 | verified exactly when storage is usable, a value is present and the stored "authHash" equals it; undefined and a throwing storage never verify |
| LoginForm.SubmitOutcome | src/components/auth/LoginForm.jsx:24-31 | the schema's errors exactly when it rejects; any toast is the invalid-hash toast; a login needs the handler to read the registered field and the input to equal the stored hash |
| LoginForm.AsWrittenNeverLogsIn | src/components/auth/LoginForm.jsx:24-31 | as written (reading `data.user`), no input and no storage content ever logs in; a valid input always gets the toast |
| LoginForm.AsWrittenRefusesStoredHash | src/components/auth/LoginForm.jsx:25 | the very hash just stored is refused as written and accepted once corrected |
| LoginForm.CorrectedLoginIff | src/components/auth/LoginForm.jsx:14-31 | corrected, login succeeds if and only if the input has ≥ 64 characters, storage is usable, and the input equals the stored hash |
| LoginForm.LoginForm.VerifyHash | src/components/auth/LoginForm.jsx:14-22 | true only for a present value equal to the slot; a throwing storage gives false |
| LoginForm.LoginForm.SubmitAsWritten | src/components/auth/LoginForm.jsx:24-31 | the handler as written never logs in |
| LoginForm.LoginForm.Submit | src/components/auth/LoginForm.jsx:24-31 | the corrected handler logs in exactly for a valid input equal to the stored hash |
| LoginForm.LoginForm.SubmitReading | src/components/auth/LoginForm.jsx:24-31 | the schema gate, then verification of the field read |
| AuthPage.AuthPage.constructor | src/pages/AuthPage.jsx:7-8 | the page opens on sign-up with no remembered hash |
| AuthPage.AuthPage.Toggle | src/pages/AuthPage.jsx:29 | the link flips the view and keeps the remembered hash |
| AuthPage.AuthPage.OnSignUpSuccess | src/pages/AuthPage.jsx:20-23 | a registration remembers the hash and switches to login |
| AuthPage.AuthPage.SubmitSignUp | src/pages/AuthPage.jsx:19-24 | a successful registration switches to login with its hash; a failed one leaves the page as it was |
| AuthPage.RegisteredHashLogsIn | src/pages/AuthPage.jsx:13-24 | a registered hash of ≥ 64 characters is accepted by the corrected login and refused by the login as written |
| Weather.WindIndex | src/pages/Weather.jsx:103 | the rounded sector index lies in -8..8 and is the floor of (2·(d % 360) + 45)/90 |
| Weather.WindDirection | src/pages/Weather.jsx:101-105 | any label returned is one of the eight compass labels |
| Weather.WindDirectionDefined | src/pages/Weather.jsx:101-105 | every non-negative reading gets a label; a negative index other than -8 gives undefined (e.g. -30°) |
| Weather.WindSector | src/pages/Weather.jsx:102-104 | a reading within 22° of 45·k is labelled with entry k mod 8 |
| Weather.CardinalLabels | src/pages/Weather.jsx:102-104 | 0→N, 45→NE, 90→E, 135→SE, 180→S, 225→SW, 270→W, 315→NW |
| Weather.NorthWraps | src/pages/Weather.jsx:103-104 | 338..359 wrap round to N |
| Weather.WindDirectionPeriodic | src/pages/Weather.jsx:103 | for non-negative d, d and d+360 get the same label |
| Weather.TimezoneLabel | src/pages/Weather.jsx:319 | for a whole-hour offset the label is "UTC", an explicit sign (+ for zero and east, - for west), then the digits of the hours |
| Weather.TimezoneLabelInjective | src/pages/Weather.jsx:319 | different whole-hour offsets get different labels |
| Weather.SearchedCity | src/pages/Weather.jsx:45-50 | a box of only whitespace keeps the city; otherwise the new city is non-empty and neither starts nor ends with whitespace |
| Weather.SearchSettles | src/pages/Weather.jsx:45-50 | the city is kept or becomes the trimmed box; searching again changes nothing; pre-trimming the box makes no difference |
| Weather.WeatherDashboard.constructor | src/pages/Weather.jsx:12-15 | city Velliparamba, empty box, light mode |
| Weather.WeatherDashboard.SetSearchInput | src/pages/Weather.jsx:122 | typing changes only the box |
| Weather.WeatherDashboard.HandleSearch | src/pages/Weather.jsx:45-50 | the city follows `SearchedCity`; nothing else changes |
| Weather.WeatherDashboard.ToggleDarkMode | src/pages/Weather.jsx:52-54 | the mode flips; nothing else changes |
| Weather.ToggleTwice | src/pages/Weather.jsx:52-54 | two toggles restore the mode |
| Roadmap.Toggled | src/pages/FullStackJavaScriptRoadmap.jsx:8-20 | the flipped key reads the opposite truthiness; every other key keeps its value |
| Roadmap.ToggleTwice | src/pages/MinimalistDataAnalystRoadmap.jsx:8-20 | a second click on the same id restores what every id shows |
| Roadmap.TogglesCommute | src/pages/FullStackJavaScriptRoadmap.jsx:8-20 | clicks on different ids commute |
| Roadmap.SectionIds | src/pages/FullStackJavaScriptRoadmap.jsx:22-450 | the section ids in table order |
| Roadmap.DistinctByTag | src/pages/FullStackJavaScriptRoadmap.jsx:22-450 | topic ids distinct within sections and prefixed per section are distinct across the table |
| Roadmap.FullStackWellKeyed | src/pages/FullStackJavaScriptRoadmap.jsx:22-450 | section ids and topic ids of the full-stack table are pairwise distinct |
| Roadmap.DataAnalystWellKeyed | src/pages/MinimalistDataAnalystRoadmap.jsx:22-326 | section ids and topic ids of the data-analyst table are pairwise distinct |
| Roadmap.TopicClickAffectsOneEntry | src/pages/FullStackJavaScriptRoadmap.jsx:481-502 | in a well-keyed table a topic click changes the subtopic display of that entry alone, flipping it when its section is open |
| Roadmap.SectionClickAffectsOneSection | src/pages/MinimalistDataAnalystRoadmap.jsx:357-378 | a section click changes no other section's entries |
| Roadmap.RoadmapView.constructor | src/pages/FullStackJavaScriptRoadmap.jsx:5-6 | both maps start empty, so everything is collapsed |
| Roadmap.RoadmapView.ToggleSection | src/pages/FullStackJavaScriptRoadmap.jsx:8-13 | flips one section and leaves the topic map alone |
| Roadmap.RoadmapView.ToggleTopic | src/pages/MinimalistDataAnalystRoadmap.jsx:15-20 | flips one topic and leaves the section map alone |
| Roadmap.CollapseAndReopen | src/pages/FullStackJavaScriptRoadmap.jsx:8-20 | collapsing and reopening a section brings back exactly the subtopic lists that were open |
| Roadmap.NewFullStackRoadmap | src/pages/FullStackJavaScriptRoadmap.jsx:4-22 | the full-stack page is a collapsed view over a well-keyed table |
| Roadmap.NewDataAnalystRoadmap | src/pages/MinimalistDataAnalystRoadmap.jsx:4-22 | the data-analyst page is a collapsed view over a well-keyed table |
| CryptoSlice.Reduce | src/app/features/crypto/cryptoSlice.jsx:15-26 | each reducer sets its own field to the payload and leaves the other three unchanged |
| CryptoSlice.ReduceIdempotent | src/app/features/crypto/cryptoSlice.jsx:15-26 | the same action twice equals it once |
| CryptoSlice.ReduceCommutes | src/app/features/crypto/cryptoSlice.jsx:15-26 | setters on different fields commute; on the same field the later wins |
| CryptoSlice.CryptoStore.constructor | src/app/features/crypto/cryptoSlice.jsx:4-9 | initial state: '', 1, "bitcoin", "ethereum" |
| CryptoSlice.CryptoStore.SetSearchTerm | src/app/features/crypto/cryptoSlice.jsx:15-17 | the store moves by the reducer |
| CryptoSlice.CryptoStore.SetConversionAmount | src/app/features/crypto/cryptoSlice.jsx:18-20 | the store moves by the reducer |
| CryptoSlice.CryptoStore.SetFromCurrency | src/app/features/crypto/cryptoSlice.jsx:21-23 | the store moves by the reducer |
| CryptoSlice.CryptoStore.SetToCurrency | src/app/features/crypto/cryptoSlice.jsx:24-26 | the store moves by the reducer |
| CryptoSlice.CryptoStore.Dispatch | src/app/features/crypto/cryptoSlice.jsx:14-27 | dispatching moves the store by the reducer |
| CryptoApi.OrDefault | src/app/features/crypto/cryptoApi.jsx:18 | a destructuring default applies exactly when the field is undefined |
| CryptoApi.SearchPath | src/app/features/crypto/cryptoApi.jsx:14 | "search?query=" followed by the term, unencoded |
| CryptoApi.CoinDetailsPath | src/app/features/crypto/cryptoApi.jsx:22-23 | "coins/", the id, then the fixed flags |
| CryptoApi.MarketsPath | src/app/features/crypto/cryptoApi.jsx:17-19 | the path is the currency head, the page number, then the per-page tail, each defaulted when left out |
| CryptoApi.CoinHistoryPath | src/app/features/crypto/cryptoApi.jsx:25-28 | the rendered id is the segment after "coins/", and the days, 30 when left out, end the path |
| CryptoApi.OhlcPath | src/app/features/crypto/cryptoApi.jsx:32-35 | the rendered id is the segment after "coins/", and the days, 1 when left out, end the path |
| CryptoApi.MarketsDefaults | src/app/features/crypto/cryptoApi.jsx:18-19 | with no fields the request is the one for currency usd, page 1 and 100 per page, in that order |
| CryptoApi.SeriesDefaults | src/app/features/crypto/cryptoApi.jsx:26-34 | history defaults to 30 days, OHLC to 1 day, both to usd |
| CryptoApi.CoinIdOfJoin | src/app/features/crypto/cryptoApi.jsx:26-34 | the id in a path "coins/<id>/…" can be read back out (the reader is a proof device; the page never parses a path) |
| CryptoApi.SeriesPathsCarryId | src/app/features/crypto/cryptoApi.jsx:26-34 | the history and OHLC paths carry the field `id` as their first segment |
| CryptoApi.PagesGiveDistinctPaths | src/app/features/crypto/cryptoApi.jsx:18-19 | different pages give different paths |
| CryptoDashboard.PrevPage | src/components/crypto_component/CryptoDashboard.jsx:495 | Previous gives max(1, page-1), always ≥ 1 |
| CryptoDashboard.NextPage | src/components/crypto_component/CryptoDashboard.jsx:505 | Next always moves forward, and from any page ≥ 1 Previous brings it back |
| CryptoDashboard.PagingRoundTrips | src/components/crypto_component/CryptoDashboard.jsx:495-505 | Previous undoes Next; Next undoes Previous above page 1; Previous on page 1 stays |
| CryptoDashboard.MarketsQuery | src/components/crypto_component/CryptoDashboard.jsx:73 | the list's `{page}` asks for the same path as that page with 100 per page in usd |
| CryptoDashboard.PagingChangesRequest | src/components/crypto_component/CryptoDashboard.jsx:73 | changing page always changes the market request |
| CryptoDashboard.Dashboard.constructor | src/components/crypto_component/CryptoDashboard.jsx:452-453 | bitcoin selected, page 1 |
| CryptoDashboard.Dashboard.Previous | src/components/crypto_component/CryptoDashboard.jsx:495 | page becomes `PrevPage` and stays ≥ 1 |
| CryptoDashboard.Dashboard.Next | src/components/crypto_component/CryptoDashboard.jsx:505 | page becomes `NextPage` and stays ≥ 1 |
| CryptoDashboard.Dashboard.SelectCoin | src/components/crypto_component/CryptoDashboard.jsx:476-489 | the coin is selected; the page stays |
| CryptoDashboard.SearchRequest | src/components/crypto_component/CryptoDashboard.jsx:278-280 | skipped if and only if the term has fewer than 2 characters |
| CryptoDashboard.ClearButtonShown | src/components/crypto_component/CryptoDashboard.jsx:292 | the clear button shows exactly for a non-empty term, so whenever a search is requested |
| CryptoDashboard.SearchViewOf | src/components/crypto_component/CryptoDashboard.jsx:305-326 | results if and only if the response has coins; "No results found" if and only if there are none, the term has ≥ 2 characters and nothing is loading |
| CryptoDashboard.ClearedSearchIsQuiet | src/components/crypto_component/CryptoDashboard.jsx:292-295 | after clearing: no request, no clear button, no "No results found" |
| CryptoDashboard.OneCharacterTerm | src/components/crypto_component/CryptoDashboard.jsx:279-292 | a one-character term shows the clear button but sends no request |
| CryptoDashboard.CryptoSearch.Clear | src/components/crypto_component/CryptoDashboard.jsx:295 | the term becomes '' |
| CryptoDashboard.CryptoSearch.Type | src/components/crypto_component/CryptoDashboard.jsx:289 | the term becomes the typed text |
| CryptoDashboard.CryptoSearch.SelectResult | src/components/crypto_component/CryptoDashboard.jsx:311-314 | the coin is selected and the term reset to '' |
| CryptoDashboard.TrendingShown | src/components/crypto_component/CryptoDashboard.jsx:252 | the first min(3, n) coins, in order |
| CryptoDashboard.Description | src/components/crypto_component/CryptoDashboard.jsx:163 | a prefix of at most 300 characters plus "...", so ≤ 303 characters; "undefined..." without a description |
| CryptoDashboard.ShowsTimeLabel | src/components/crypto_component/CryptoDashboard.jsx:409 | a candle is labelled exactly when its index is a multiple of 5 |
| CryptoDashboard.LabelCount | src/components/crypto_component/CryptoDashboard.jsx:409 | among n candles at most n are labelled, and at least one when n > 0 |
| CryptoDashboard.LabelCountFormula | src/components/crypto_component/CryptoDashboard.jsx:409 | among n candles, ⌈n/5⌉ carry a time label |
| CryptoDashboard.ChartArgsAsWritten | src/components/crypto_component/CryptoDashboard.jsx:172 | the record passed has no field `id` |
| CryptoDashboard.ChartArgs | src/components/crypto_component/CryptoDashboard.jsx:334 | the corrected record carries the coin as `id` |
| CryptoDashboard.ChartQueriesIgnoreCoin | src/components/crypto_component/CryptoDashboard.jsx:171-172 | as written, both charts request the coin "undefined" whatever coin is selected |
| CryptoDashboard.ChartQueriesFollowCoin | src/components/crypto_component/CryptoDashboard.jsx:333-334 | corrected, each chart requests the selected coin, and different coins give different requests |
| CryptoDashboard.Chart.SetDays | src/components/crypto_component/CryptoDashboard.jsx:217-229 | a range button sets the days |
| CryptoDashboard.NewHistoryChart | src/components/crypto_component/CryptoDashboard.jsx:171 | the history chart, when mounted, starts at 30 days (the dashboard never mounts it) |
| CryptoDashboard.NewOhlcChart | src/components/crypto_component/CryptoDashboard.jsx:333 | the candle chart, when mounted, starts at 1 day (the dashboard never mounts it) |

## Left out

- Network I/O is not modelled: the weather fetch, the RTK Query runtime and its hooks, and the pinning client in `src/utils/pinataConfig.js`. The sign-up flow takes the connectivity probe's answer and the upload's outcome (a URL, or a failure message) as inputs.
- `uploadUserData`'s own pinning call (`src/lib/auth/api.js:12`) uses an import that `src/utils/pinataConfig.js` does not export. Only its URL formula and its rethrow are modelled.
- SHA-256 is a function-typed parameter; nothing depends on its output beyond being a string. The bogus encoder argument at `src/lib/auth/utils.js:5` is not modelled.
- The email syntax check of the schema library is a predicate parameter `isEmail`.
- Clocks: `Date.now()` and `new Date().toISOString()` are parameters. `Math.random` in `src/App.jsx` and `src/pages/PoemPage.jsx` is not modelled.
- TypingPractice.TypingSession.HandleInputChange: the words-per-minute figure is floating-point, so it is an input (`computedWpm`), not computed. The completion toast text is not modelled.
- TypingPractice.RoundPercent: computed in exact rationals. A floating-point quotient that lands a hair off a .5 boundary could round differently.
- Lengths, `substring` and `slice` count characters here, not UTF-16 code units. This matters for text outside the Basic Multilingual Plane.
- Weather.WindDirection: covers integer degree readings only; fractional readings from the service are not covered.
- Floating-point presentation is not modelled: OHLC pixel scaling, `toFixed`, `Intl.NumberFormat`, percentages and visibility.
- Weather.TimezoneLabel: covers offsets of a whole number of hours only. Other offsets make `timezone / 3600` a fraction, such as 5.5, which JavaScript renders as a float.
- The candle colour (`close >= open` at `CryptoDashboard.jsx:380`) is presentation and is not modelled. The candle chart, which holds it and the time labels, is never mounted by the dashboard.
- The auth page's heading (`AuthPage.jsx:12`) is presentation and is not modelled. The view flag that selects it is.
- CryptoSlice.CryptoStore.SetConversionAmount: the payload is a real number; NaN and infinities are not modelled.
- CryptoApi paths render numbers as integers only.
- Loading, error and "No coin selected" branches of the dashboard panels are not modelled. Neither are `src/components/crypto_component/MarketStats.jsx` (a slice of three plus float formatting) and the coin-list click at `CryptoDashboard.jsx:94`.
- Static text is not modelled: the course catalogue (a parameter), roadmap titles, topic names and subtopic texts (only ids are kept), and poem strings.
- Presentation and wiring are not modelled: layout, navigation bar, form-input components, submit buttons, routes, store set-up, focus effects, console logging, and animation.
- The Esc shortcut advertised on the typing page has no handler, so none is modelled.
- The `recentHash` prop passed to the login form is not read by it, so it has no effect in the model.
- Concurrent or cross-tab registrations are not modelled; every run is a single sequential submission.

## Findings

| source | as written | input that shows it | evidently intended | confidence | as-written member | corrected member |
|---|---|---|---|---|---|---|
| src/components/auth/LoginForm.jsx:25 | the submit handler verifies `data.user`, but the form registers only `hash`, so `undefined` is compared with the stored hash | register, then log in with the very hash just stored (≥ 64 characters): the toast "hash is invalid…" appears | verify `data.hash` | not executed | LoginForm.AsWrittenRefusesStoredHash | LoginForm.CorrectedLoginIff |
| src/lib/auth/utils.js:4 | `generateHash` joins email and phone with no separator; no page calls it (sign-up uses api.js), so the collision is latent | email "ab" with phone "c", and email "a" with phone "bc", at the same instant: same preimage, same hash | separate the fields, as `generateAndSendHash` does in api.js | not executed | AuthHash.UtilsPreimageCollides | AuthHash.ApiPreimageInjective |
| src/components/crypto_component/CryptoDashboard.jsx:172 | the history and candle charts (`CoinHistoryChart`, `OHLCChart`) pass `{coinId, days}`, but the query builders read `id`; the defect is latent, because `CryptoDashboard` (lines 451-517) mounts neither chart | mount `<CoinHistoryChart coinId="ethereum" />`: its request is "coins/undefined/market_chart?vs_currency=usd&days=30"; as the page stands, no chart request is sent at all | pass `{id: coinId, days}` | not executed | CryptoDashboard.ChartQueriesIgnoreCoin | CryptoDashboard.ChartQueriesFollowCoin |
