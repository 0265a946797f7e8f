# Restaurant admin console: a Dafny model of its logic

The console is a React single-page application. Restaurant staff use it to
register restaurants, run a point-of-sale screen, and maintain categories,
order statuses, menu entries and subcategories. Its logic sits in a few
places:

- the event handlers of those screens;
- the HTTP client, which refreshes an expired token and queues the requests
  that wait for it;
- two login services, which keep the authentication state;
- a toast store for notifications.

This project models that logic in Dafny and proves what each piece
promises.

Layout, one module per source file, over three shared layers:

- `Text` (`text.dfy`): string trimming, ASCII lower-casing, `includes`,
  digit strings, `padStart`, `join`.
- `Util` (`util.dfy`): `Option`, and `Array.prototype.filter`/`map` over
  sequences, with their membership and order lemmas.
- `JsValue` (`js_value.dfy`): JSON/JavaScript values (`undefined`, `null`,
  booleans, integer numbers, `NaN`, strings, arrays, objects) with property
  access, truthiness, `??`, `Number()`, `String()` and the
  array-or-`results` unwrapping. It also holds `Outcome`: a request that
  resolved with a body or rejected with an error.
- `AddRestaurant` (`add_restaurant.dfy`): `toTime`, `toNum`, the payloads,
  the day codes, the six-step submission, and the form's accordion and
  schedule inputs (class `AddRestaurantForm`).
- `Pos` (`pos.dfy`): item normalisation, the veg/non-veg partition, and the
  cart and its total (class `PosScreen`).
- `PosSubcategory` (`pos_subcategory.dfy`): the cuisine navigation bar
  (class `CuisineNav`).
- `ApiClient` (`axios_instance.dfy`): the base URL, list unwrapping, the
  refresh predicate, the request header (class `Request`) and the refresh
  waiter queue (class `RefreshCoordinator`).
- `AuthCommon` (`auth_common.dfy`): what both login services share. That is
  the state, the refresh merge, the login payload, the 401 guard and the
  error text.
- `ServicesLogin` and `LoginService` (`services_login.dfy`,
  `loginservice_login.dfy`): the two login services as classes. The first
  mirrors its state in storage; the second does not.
- `CategoriesSetup`, `StatusSetup`, `RestaurantMenu`, `SubcategoriesSetup`:
  the four set-up screens as classes.
- `ToastProvider` (`toast_provider.dfy`): the toast store (class
  `ToastStore`).

How the browser world is represented:

- A screen's state is a class whose fields are its React state. Each
  handler is a method. A server call is passed in as the `Outcome` it
  settled with.
- Clock readings, random draws, dates and identifiers from `Date.now()` are
  parameters.
- Toasts a screen raises are recorded as a list of `Notice`s, and alerts as
  a list of strings.
- Browser storage entries are fields that hold the already parsed values.

## Model

| member | source | states |
|---|---|---|
| JsValue.PositionalId | src/components/Pos.tsx:83 | the id is the numeric id when that is a non-zero number, else index + 1; never 0 |
| JsValue.ArrayOrResultsRoundTrip | src/components/Pos.tsx:52-56 | a plain array and an envelope holding it under `results`, whatever its other keys, unwrap to the same elements; anything else unwraps to none; unwrapping twice changes nothing |
| JsValue.ThrownMeaning | src/components/Pos.tsx:108-109 | a `TypeError` from reading a property of null or undefined is shown as its own message, "Cannot read properties of null (reading '…')" or the same with undefined |
| JsValue.StrToNumber | src/components/CategoriesSetup.tsx:134 | `Number()` of a string is a number or NaN: blank is 0, a trimmed digit string its decimal value, never negative |
| Text.EmptyTermMatches | src/components/Statussetup.tsx:100-105 | an empty search term is contained in every field |
| AddRestaurant.ToTime | src/components/Addrestaurant.tsx:374-377 | the empty or blank input gives null |
| AddRestaurant.MinutesToTimeMeaning | src/components/Addrestaurant.tsx:378-386 | minutes print as an hour field of at least two digits holding total div 60, two-digit minutes total mod 60, seconds 00; hours not capped at 23 |
| AddRestaurant.ToTimeDigits | src/components/Addrestaurant.tsx:378-386 | a trimmed all-digit input is read as a number of minutes |
| AddRestaurant.CompactExample | src/components/Addrestaurant.tsx:378-394 | "1305" gives "21:45:00", while the compact HHMM branch would give "13:05:00": that branch is unreachable |
| AddRestaurant.ToTimeHourMinute | src/components/Addrestaurant.tsx:396-400 | "H:MM"/"HH:MM" is accepted exactly when minutes ≤ 59, giving the padded hour, the minutes and ":00" |
| AddRestaurant.ToTimeHourMinuteSecond | src/components/Addrestaurant.tsx:402-409 | "H:MM:SS"/"HH:MM:SS" is accepted exactly when minutes and seconds are ≤ 59 |
| AddRestaurant.ToTimeOtherShapes | src/components/Addrestaurant.tsx:410 | every other shape gives null |
| AddRestaurant.ToTimeRereadsOwnOutput | src/components/Addrestaurant.tsx:374-410 | the converter reads its own output back unchanged below 100 hours |
| AddRestaurant.ToTimeHundredHours | src/components/Addrestaurant.tsx:378-410 | 6000 minutes print as "100:00:00", which the converter itself rejects |
| AddRestaurant.ParseIntDigits | src/components/Addrestaurant.tsx:413 | `parseInt` of a plain digit string is its decimal value |
| AddRestaurant.TableBookingPayloadMeaning | src/components/Addrestaurant.tsx:412-427 | min people defaults to 1, max defaults to min and is raised to it, so max ≥ min; tables default to 0, floors to 1; the cut-off goes through `toTime` |
| AddRestaurant.DayNamedRoundTrip | src/components/Addrestaurant.tsx:198-203 | the day read from a "day_" checkbox name is the day that name was written for |
| AddRestaurant.DayCodeInjective | src/components/Addrestaurant.tsx:308-316 | different days have different codes |
| AddRestaurant.OperationalDaysMembership | src/components/Addrestaurant.tsx:317-319 | a day's code is sent iff its box is checked |
| AddRestaurant.SentDayIsChecked | src/components/Addrestaurant.tsx:317-319 | every sent code belongs to a checked day |
| AddRestaurant.CheckedDayIsSent | src/components/Addrestaurant.tsx:317-319 | every checked day's code is sent |
| AddRestaurant.OperationalDaysOrdered | src/components/Addrestaurant.tsx:308-319 | codes come in Monday-to-Sunday order without repetition |
| AddRestaurant.ScheduleOfMeaning | src/components/Addrestaurant.tsx:320-330 | the schedule payload sends the checked days' codes, every empty time as null and every other time as typed, under the source's field names |
| AddRestaurant.RestaurantPayloadMeaning | src/components/Addrestaurant.tsx:270-287 | empty alternative/landline numbers fall back to the mobile number; each flag is true iff the field is exactly "yes"; cuisines is empty or one element |
| AddRestaurant.BlockedDayPayloadsMeaning | src/components/Addrestaurant.tsx:342-364 | one record per checked block type, order first, each under the schedule id and the same dates |
| AddRestaurant.OrderConfigMinimumOrder | src/components/Addrestaurant.tsx:459-461 | an empty minimum order is 0, any other text goes through `parseInt` |
| AddRestaurant.RestaurantIdPrecedence | src/components/Addrestaurant.tsx:294-298 | the restaurant id is `id`, then `restaurant.id`, then `restaurant_id`, the first not nullish |
| AddRestaurant.ScheduleIdPrecedence | src/components/Addrestaurant.tsx:332 | the schedule id is `id`, then `schedule.id` |
| AddRestaurant.Submit | src/components/Addrestaurant.tsx:262-530 | the calls and error messages are the step-by-step reference ones; success iff no message; the alert follows success |
| AddRestaurant.ScheduleSteps | src/components/Addrestaurant.tsx:306-371 | the schedule is posted iff the restaurant id is truthy, the blocked days iff a truthy schedule id came back; each failing step adds exactly its message |
| AddRestaurant.ConfigSteps | src/components/Addrestaurant.tsx:372-470 | table booking then order configuration, both iff the restaurant id is truthy; a table failure reports the server's detail |
| AddRestaurant.Uploads | src/components/Addrestaurant.tsx:472-522 | each upload is attempted only when a file was chosen, and each failure adds its message |
| AddRestaurant.SubmitGating | src/components/Addrestaurant.tsx:294-307 | the restaurant goes first; schedule, table booking and order config are posted iff a truthy restaurant id came back |
| AddRestaurant.SubmitCallsWithoutRestaurant | src/components/Addrestaurant.tsx:299-302 | a failed first step leaves only the uploads |
| AddRestaurant.UploadCallsUngated | src/components/Addrestaurant.tsx:472-522 | no upload needs the restaurant id |
| AddRestaurant.SubmitBlockedCalls | src/components/Addrestaurant.tsx:342-364 | blocked-day posts happen only under a truthy schedule id and each carries it |
| AddRestaurant.SubmitErrorsWithoutRestaurant | src/components/Addrestaurant.tsx:300-302 | a failed first step reports one message and the skipped steps none |
| AddRestaurant.SubmitSuccessIff | src/components/Addrestaurant.tsx:524-530 | the submission succeeds iff every step it attempts succeeds |
| AddRestaurant.AlertMessageFailure | src/components/Addrestaurant.tsx:529 | a failure alert is the heading and the first message, and each further message adds a line break and itself; success has its own fixed text |
| AddRestaurant.AddRestaurantForm.constructor | src/components/Addrestaurant.tsx:64-71 | all sections closed; no day checked and every time empty |
| AddRestaurant.AddRestaurantForm.ToggleSection | src/components/Addrestaurant.tsx:536-548 | the section flips, every other closes, so at most one is open |
| AddRestaurant.AddRestaurantForm.HandleScheduleChange | src/components/Addrestaurant.tsx:195-212 | a day checkbox sets that day, another checkbox its flag, other inputs their text; nothing else changes |
| Pos.TypeOfMeaning | src/components/Pos.tsx:59-79 | a string with "non" is non-veg; otherwise one with "veg" or equal to "v" is veg; 1 is veg, 0 non-veg; anything else has no type |
| Pos.NonVegSpellingWins | src/components/Pos.tsx:64-70 | "Non-Veg" is non-veg although it also contains "veg" |
| Pos.PriceOfPrecedence | src/components/Pos.tsx:92 | the first present of price, selling_price, cost decides the price; an unreadable present price is 0 whatever the later fields hold; a digit string reads as its value; none present is 0 |
| Pos.ItemOf | src/components/Pos.tsx:80-104 | the id is never 0; `isVeg` iff the type is veg; the type is the one of the raw type kept |
| Pos.NormaliseItems | src/components/Pos.tsx:58-105 | fails exactly on a null element, else keeps length and normalises each element at its index |
| Pos.PartitionMembership | src/components/Pos.tsx:156-157 | the veg list holds exactly the veg items, the non-veg list the non-veg ones; they are disjoint and untyped items are in neither |
| Pos.PartitionKeepsOrder | src/components/Pos.tsx:156-157 | both lists keep item order |
| Pos.WithItemAddedMeaning | src/components/Pos.tsx:122-133 | an item already in the cart has only its quantity raised by 1; a new one is appended with quantity 1 |
| Pos.WithItemAddedKeepsInvariant | src/components/Pos.tsx:122-133 | ids stay unique and quantities ≥ 1 |
| Pos.WithoutItemMeaning | src/components/Pos.tsx:137-138 | removal drops exactly the lines with that id and keeps the invariant |
| Pos.WithoutItemKeepsInvariant | src/components/Pos.tsx:137-138 | removal keeps ids unique and quantities ≥ 1 |
| Pos.WithQuantityMeaning | src/components/Pos.tsx:140-144 | only the line with that id gets the new quantity; length and order kept; the invariant holds for n ≥ 1 |
| Pos.TotalIsSum | src/components/Pos.tsx:148-153 | the reduce equals the sum of price × quantity |
| Pos.TotalAfterAdd | src/components/Pos.tsx:122-133 | an add raises the total by the item's price |
| Pos.TotalAfterSet | src/components/Pos.tsx:140-144 | setting quantity n changes the total by price × (n − old quantity) |
| Pos.PosScreen.constructor | src/components/Pos.tsx:22-29 | nothing selected, no items, empty cart |
| Pos.PosScreen.SelectCuisine | src/components/Pos.tsx:31-33 | the selection becomes the cuisine given |
| Pos.PosScreen.LoadItems | src/components/Pos.tsx:39-113 | no selection empties the items; a response is normalised; a null element records "Cannot read properties of null (reading 'item_type')" (or undefined); a failure records its message or "Failed to load items" |
| Pos.PosScreen.AddToCart | src/components/Pos.tsx:122-133 | the cart becomes the add reference and keeps its invariant |
| Pos.PosScreen.UpdateQuantity | src/components/Pos.tsx:136-146 | n ≤ 0 removes the line, n > 0 sets its quantity; the invariant is kept |
| Pos.PosScreen.TotalPrice | src/components/Pos.tsx:148-153 | the sum of price × quantity; 0 for an empty cart |
| PosSubcategory.CuisineOfMeaning | src/components/Possubcategory.tsx:51-63 | the id is the numeric id or index + 1 when 0/NaN; the name is the first string of the four keys, else "Cuisine " + (index + 1) |
| PosSubcategory.NormaliseCuisines | src/components/Possubcategory.tsx:50-64 | fails exactly on a null element, else keeps length and order |
| PosSubcategory.CuisineNav.constructor | src/components/Possubcategory.tsx:14-24 | no cuisines, none active |
| PosSubcategory.CuisineNav.Load | src/components/Possubcategory.tsx:35-80 | the cuisines are the normalised list; a non-empty list activates and announces its first cuisine once; an empty one activates none; a null element records "Cannot read properties of null (reading 'id')" (or undefined); a failure records its message |
| PosSubcategory.CuisineNav.Click | src/components/Possubcategory.tsx:91-94 | the clicked cuisine becomes active and is announced |
| ApiClient.TokenPrefixMeaning | src/api/axiosInstance.ts:11-13 | the prefix is trimmed and never has surrounding white space; unset or empty gives "Bearer"; a prefix without spaces is kept; a setting of only spaces gives the empty prefix |
| ApiClient.BaseUrlMeaning | src/api/axiosInstance.ts:16-18 | the base URL ends in "/api"; one trailing "/" is dropped, a second one stays |
| ApiClient.ServiceUrls | src/api/axiosInstance.ts:6-8 | the two services are on ports 8000 and 8001 under "/api" |
| ApiClient.UnwrapMeaning | src/api/axiosInstance.ts:144-153 | an array and a `results` envelope of it unwrap to the same list; without `results` the list is empty; the first element is `None` exactly for an empty list and is otherwise the first listed element, which may itself be null (a JavaScript caller sees both as the same null); the list is the one the screens unwrap inline |
| ApiClient.NeedsRefreshMeaning | src/api/axiosInstance.ts:90-97 | a refresh only for 401/403, not yet retried, with one of the three detail strings |
| ApiClient.Request.AttachAuth | src/api/axiosInstance.ts:42-47 | `Authorization` becomes prefix + " " + token iff a token is present |
| ApiClient.SettleAgreesWithAttach | src/api/axiosInstance.ts:114-123 | a released waiter resubmits exactly when the token is truthy, with the header the request interceptor attaches; without a token it rejects |
| ApiClient.SettlementsMeaning | src/api/axiosInstance.ts:34-37 | every queued waiter is settled once, in queue order, with the same token |
| ApiClient.InitiatorLeftWaiting | src/api/axiosInstance.ts:101-125 | the request that starts a refresh is not settled by it and stays queued |
| ApiClient.CorrectedSettlesInitiator | src/api/axiosInstance.ts:101-125 | with the initiator queued before the release, the refresh settles it too and nothing stays queued |
| ApiClient.RefreshCoordinator.Enqueue | src/api/axiosInstance.ts:31-33 | the waiter is appended at the end |
| ApiClient.RefreshCoordinator.ReleaseAll | src/api/axiosInstance.ts:34-37 | every waiter is settled in order with the token; the queue is emptied |
| ApiClient.RefreshCoordinator.OnAuthError | src/api/axiosInstance.ts:85-113 | an error that needs no refresh is passed on unchanged; otherwise the request is marked retried and either starts a refresh or is queued |
| ApiClient.RefreshCoordinator.OnRefreshSettled | src/api/axiosInstance.ts:104-125 | the waves as written: the queue is settled and only then is the initiator queued |
| ApiClient.RefreshCoordinator.OnRefreshSettledCorrected | src/api/axiosInstance.ts:101-125 | the corrected wave: the initiator is settled with the queue |
| AuthCommon.ParseErrorMeaning | src/services/Login.tsx:72-79 | for every error: a non-empty string `detail` wins, then `message`, then the error's own message; "Request failed" only when none of them is truthy; a thrown error without a response shows its message |
| AuthCommon.ParseErrorPrefersDetail | src/loginservice/Login.tsx:44-51 | a string detail wins over a message sent alongside |
| AuthCommon.ShouldRetryMeaning | src/services/Login.tsx:155-163 | retried only for 401, once per request, never for the refresh URL |
| AuthCommon.AfterRefreshMeaning | src/services/Login.tsx:100-123 | no token: no change; no state and no tenant: no change; no state: a "Bearer" state without refresh token; a state: token replaced, permissions and tenant only when sent |
| AuthCommon.AfterRefreshIdempotent | src/services/Login.tsx:100-128 | a successful refresh leaves a logged-in state, and repeating it changes nothing |
| AuthCommon.GettersAfterTransitions | src/services/Login.tsx:86-98 | after a successful refresh the token getter returns the token sent and the user getter the tenant sent or kept; after a login they return the response's truthy token and tenant; after logout both return null |
| AuthCommon.LoginPayloadTrimInsensitive | src/services/Login.tsx:197-201 | trimming the client username first, as the prompt does, posts the same body; a blank client username is dropped either way |
| AuthCommon.PermissionsOrMeaning | src/services/Login.tsx:208-214 | the stored permissions are always truthy, are the sent ones when those are truthy, equal the state's, and a later refresh without permissions reads them back unchanged |
| AuthCommon.LoginStateMeaning | src/services/Login.tsx:210-216 | a login replaces the whole state; the refresh token defaults to null, permissions to `{}` |
| ServicesLogin.Session.constructor | src/services/Login.tsx:39-50 | the stored state becomes the current one; the session's client username is kept |
| ServicesLogin.Session.SetAuthFromRefresh | src/services/Login.tsx:100-128 | succeeds iff the merge does, then the new state is saved and logged in; otherwise nothing changes |
| ServicesLogin.Session.RefreshAccessToken | src/services/Login.tsx:231-253 | the new token when the response is accepted, null when refused or failed |
| ServicesLogin.Session.GetToken | src/services/Login.tsx:190-228 | posts the login payload; a non-null body replaces and saves the state and permissions; a failure, or a null body whose permissions cannot be read, alerts "❌ Login failed: " + the parsed error or the TypeError text and changes nothing |
| ServicesLogin.Session.OnResponseError | src/services/Login.tsx:149-173 | an unguarded error is passed on with nothing changed; a guarded 401 is marked retried and, exactly when the refresh merge succeeds, the merged state is saved and the request resent with "Bearer " + its token; otherwise the user is asked to log in and the state is kept |
| ServicesLogin.Session.AfterInteractiveLogin | src/services/Login.tsx:175-185 | resent with the current token after a successful login, otherwise rejected |
| ServicesLogin.Session.BootstrapAuth | src/services/Login.tsx:281-285 | true exactly when the refresh merge succeeds; the merged state is then current and saved, otherwise the state is kept |
| ServicesLogin.Session.LogoutLocal | src/services/Login.tsx:288-295 | state, stored state, permissions and client username cleared |
| ServicesLogin.Session.Logout | src/services/Login.tsx:297-310 | local data cleared and cookie expired whatever the server answered |
| LoginService.Session.constructor | src/loginservice/Login.tsx:36 | no state at load; stored permissions and the session's client username are kept |
| LoginService.Session.SetAuthFromRefresh | src/loginservice/Login.tsx:57-82 | the same merge rules, without persisting |
| LoginService.Session.RefreshAccessToken | src/loginservice/Login.tsx:174-196 | the new token when accepted, null when refused or failed |
| LoginService.Session.GetToken | src/loginservice/Login.tsx:139-171 | posts the login payload; a non-null body replaces the state from the response; a failure, or a null body, alerts the parsed error or the TypeError text and changes nothing |
| LoginService.Session.OnResponseError | src/loginservice/Login.tsx:98-122 | the same 401 guard; exactly when the refresh merge succeeds the request is resent with "Bearer " + the new token; otherwise the user is asked to log in and the state is kept |
| LoginService.Session.AfterInteractiveLogin | src/loginservice/Login.tsx:124-134 | resent with the current token after a successful login, otherwise rejected |
| LoginService.Session.BootstrapAuth | src/loginservice/Login.tsx:224-228 | true exactly when the refresh merge succeeds, which then leaves the merged state; otherwise the state is kept |
| LoginService.Session.LogoutLocal | src/loginservice/Login.tsx:231-235 | state, permissions and client username cleared |
| LoginService.Session.Logout | src/loginservice/Login.tsx:237-247 | local data cleared and cookie expired whatever the server answered |
| CategoriesSetup.CandidateText | src/components/CategoriesSetup.tsx:309-316 | a candidate contributes only non-blank text |
| CategoriesSetup.FirstTimingMeaning | src/components/CategoriesSetup.tsx:298-319 | the first candidate with text wins, in the order timings, time, schedule, menuType, opening_hours, hours, timing; "-" iff none has text |
| CategoriesSetup.ResolveTimingsNeverBlank | src/components/CategoriesSetup.tsx:298-319 | the timings column is never blank |
| CategoriesSetup.CuisineOptionsMeaning | src/components/CategoriesSetup.tsx:78-84 | a non-array offers no cuisines; the load fails only for a null element; otherwise exactly the normalised cuisines with a truthy id are offered |
| CategoriesSetup.FindCuisineMeaning | src/components/CategoriesSetup.tsx:136-138 | not found exactly when every name is a differing string; throws exactly when a non-string name comes before any match; otherwise the first match's id |
| CategoriesSetup.ResolveCuisineMeaning | src/components/CategoriesSetup.tsx:133-138 | a stored id decides alone, as the number its digits spell; an unmatched name leaves the cuisine out; a failed lookup means a non-string cuisine name |
| CategoriesSetup.ResolveCuisinePrecedence | src/components/CategoriesSetup.tsx:133-142 | without an id, the first cuisine whose name matches the trimmed name case-insensitively is used |
| CategoriesSetup.AddPayloadMeaning | src/components/CategoriesSetup.tsx:118-149 | the trimmed name; the trimmed timings under all five keys or none; a truthy cuisine as `cuisines: [id]`, `cuisine` and `cuisine_id` |
| CategoriesSetup.ToggledMeaning | src/components/CategoriesSetup.tsx:392-399 | the checkbox flips that cuisine's membership only; two ticks restore the selection |
| CategoriesSetup.AfterDoneMeaning | src/components/CategoriesSetup.tsx:416-426 | Done names exactly the ticked cuisines; the id is the first ticked one or "" |
| CategoriesSetup.WithoutCategoryMeaning | src/components/CategoriesSetup.tsx:182-184 | a delete removes exactly the entries with that id |
| CategoriesSetup.EditPayloadMeaning | src/components/CategoriesSetup.tsx:224-225 | white space around the name changes nothing sent; an accepted name is sent non-blank; empty or null timings are not sent |
| CategoriesSetup.WithEntryEditedMeaning | src/components/CategoriesSetup.tsx:227-240 | the optimistic edit touches only that id, sets the name, and shows non-blank timings in the column |
| CategoriesSetup.CategoriesScreen.constructor | src/components/CategoriesSetup.tsx:29-46 | empty list, empty form, nothing selected, ticked or being edited |
| CategoriesSetup.CategoriesScreen.LoadCategories | src/components/CategoriesSetup.tsx:91-102 | an array response becomes the list; a failure empties it with "Failed to load categories" |
| CategoriesSetup.CategoriesScreen.LoadCuisines | src/components/CategoriesSetup.tsx:56-89 | the picker gets the normalised cuisines; any failure leaves it empty |
| CategoriesSetup.CategoriesScreen.HandleAdd | src/components/CategoriesSetup.tsx:112-170 | a blank name only warns and posts nothing; a created category is appended and the form reset; failures report "Failed to add category" |
| CategoriesSetup.CategoriesScreen.ToggleCuisine | src/components/CategoriesSetup.tsx:392-399 | the selection is toggled |
| CategoriesSetup.CategoriesScreen.CuisineDone | src/components/CategoriesSetup.tsx:416-427 | the form gets the Done values and the picker closes |
| CategoriesSetup.CategoriesScreen.BeginDelete | src/components/CategoriesSetup.tsx:178-179 | the id is marked while its delete is pending |
| CategoriesSetup.CategoriesScreen.FinishDelete | src/components/CategoriesSetup.tsx:180-193 | success removes that id's entries; the mark is cleared either way |
| CategoriesSetup.CategoriesScreen.StartEdit | src/components/CategoriesSetup.tsx:197-210 | editing starts from the name and the first present timing key |
| CategoriesSetup.CategoriesScreen.CancelEdit | src/components/CategoriesSetup.tsx:212-215 | editing ends with empty values |
| CategoriesSetup.CategoriesScreen.SaveEdit | src/components/CategoriesSetup.tsx:217-259 | a blank name only warns and a non-string name changes nothing; a failed update restores the list and keeps the edit; a successful one merges the answer and ends the edit |
| StatusSetup.ColorLabelMeaning | src/components/Statussetup.tsx:237-239 | the label and the colour map are inverse; "Custom" exactly for colours of no state |
| StatusSetup.DefaultColorLabel | src/components/Statussetup.tsx:20-27 | the default colour is the "Cancelled" one |
| StatusSetup.VisibleItemsMeaning | src/components/Statussetup.tsx:100-105 | an item is shown iff the term occurs case-insensitively in its status, display name or order id |
| StatusSetup.EmptySearchShowsAll | src/components/Statussetup.tsx:100-105 | an empty term shows every item |
| StatusSetup.WithoutItemMeaning | src/components/Statussetup.tsx:96-98 | a delete removes every item with that id and keeps the rest in order |
| StatusSetup.StatusScreen.constructor | src/components/Statussetup.tsx:17-31 | empty inputs and list, the default colour |
| StatusSetup.StatusScreen.ChooseFixedState | src/components/Statussetup.tsx:44-48 | a new state of the map selects its colour; an empty, unknown or unchanged one keeps it |
| StatusSetup.StatusScreen.PickColor | src/components/Statussetup.tsx:260-266 | the colour picked from the map is selected; the label never reads "Custom" |
| StatusSetup.StatusScreen.HandleAdd | src/components/Statussetup.tsx:63-89 | with all four inputs filled an item with trimmed fields, flags off and the colour is appended, the inputs emptied and the colour reset; otherwise nothing changes |
| StatusSetup.StatusScreen.HandleDelete | src/components/Statussetup.tsx:96-98 | the list loses that id's items |
| StatusSetup.StatusScreen.SetSearchTerm | src/components/Statussetup.tsx:171 | the term is stored and the table shows exactly the rows matching it |
| RestaurantMenu.MenuScreen.SetSearchTerm | src/components/Restaurantmenu.tsx:134 | the term is stored, the table shows the entries matching it, the inputs and entries are kept |
| SubcategoriesSetup.SubcategoriesScreen.SetSearchTerm | src/components/SubcategoriesSetup.tsx:117 | the term is stored, the table shows the entries matching it, the screen stays in its reachable state |
| StatusSetup.StatusScreen.Visible | src/components/Statussetup.tsx:100-105 | only matching items; all of them for an empty term |
| RestaurantMenu.VisibleItemsMeaning | src/components/Restaurantmenu.tsx:63-68 | an entry is shown iff the term occurs case-insensitively in its name, category or subcategory |
| RestaurantMenu.EmptySearchShowsAll | src/components/Restaurantmenu.tsx:63-68 | an empty term shows every entry |
| RestaurantMenu.AddedEntryFoundByName | src/components/Restaurantmenu.tsx:39-40 | an added entry has empty category fields, so only its name can match |
| RestaurantMenu.WithoutItemMeaning | src/components/Restaurantmenu.tsx:59-61 | a delete removes exactly that id's entries and keeps order |
| RestaurantMenu.MenuScreen.constructor | src/components/Restaurantmenu.tsx:19-22 | empty inputs and list |
| RestaurantMenu.MenuScreen.HandleAdd | src/components/Restaurantmenu.tsx:32-52 | with both inputs filled an active entry with zero prices is appended and the inputs emptied; otherwise nothing changes |
| RestaurantMenu.MenuScreen.HandleDelete | src/components/Restaurantmenu.tsx:59-61 | the list loses that id's entries |
| RestaurantMenu.MenuScreen.Visible | src/components/Restaurantmenu.tsx:63-68 | only matching entries; all of them for an empty term |
| SubcategoriesSetup.AfterAddMeaning | src/components/SubcategoriesSetup.tsx:24-31 | both names are needed; a new entry holds them trimmed and comes last |
| SubcategoriesSetup.AddNeverGrows | src/components/SubcategoriesSetup.tsx:25 | with the subcategory name empty an add changes nothing |
| SubcategoriesSetup.VisibleEntriesMeaning | src/components/SubcategoriesSetup.tsx:45-51 | an entry is shown iff the term occurs case-insensitively in either name; an empty term shows all |
| SubcategoriesSetup.WithoutEntryMeaning | src/components/SubcategoriesSetup.tsx:41-43 | a delete removes exactly that id's entries |
| SubcategoriesSetup.SubcategoriesScreen.constructor | src/components/SubcategoriesSetup.tsx:11-14 | empty inputs and list |
| SubcategoriesSetup.SubcategoriesScreen.SetCategoryName | src/components/SubcategoriesSetup.tsx:11 | the category input changes; the subcategory name stays empty |
| SubcategoriesSetup.SubcategoriesScreen.HandleAdd | src/components/SubcategoriesSetup.tsx:24-34 | the list is the add reference; from any reachable state it never grows |
| SubcategoriesSetup.SubcategoriesScreen.HandleDelete | src/components/SubcategoriesSetup.tsx:41-43 | the list loses that id's entries |
| SubcategoriesSetup.SubcategoriesScreen.Visible | src/components/SubcategoriesSetup.tsx:45-51 | only matching entries; all of them for an empty term |
| ToastProvider.GeneratedIdInjective | src/components/toast/ToastProvider.tsx:52 | different counter values give different ids |
| ToastProvider.ToastOfDefaults | src/components/toast/ToastProvider.tsx:53-65 | type "info", labels "Yes"/"No" unless a non-empty one is given so no button is unlabelled, duration 4000 unless given; a confirm has no duration |
| ToastProvider.HelpersForceType | src/components/toast/ToastProvider.tsx:81-89 | a helper's type and title win over the options |
| ToastProvider.WithoutMeaning | src/components/toast/ToastProvider.tsx:46-48 | `remove` drops exactly the toasts with that id |
| ToastProvider.ToastStore.constructor | src/components/toast/ToastProvider.tsx:43-44 | no toasts, counter 0 |
| ToastProvider.ToastStore.Push | src/components/toast/ToastProvider.tsx:50-77 | a given id is used, else "t_" + the incremented counter, never repeating; the toast is appended; a timer iff the duration is non-zero |
| ToastProvider.ToastStore.Remove | src/components/toast/ToastProvider.tsx:46-48 | the toasts with that id are removed |
| ToastProvider.ToastStore.Notify | src/components/toast/ToastProvider.tsx:81-88 | the appended toast has the helper's type; the id is the given one or a fresh generated one; a removal is scheduled for its duration, 4000 by default, unless 0; no callback runs |
| ToastProvider.ToastStore.AskConfirm | src/components/toast/ToastProvider.tsx:89 | the appended toast is a confirm without duration; the id is the given one or a fresh generated one; no timer is set and no callback runs |
| ToastProvider.ToastStore.HandleConfirm | src/components/toast/ToastProvider.tsx:92-103 | the toast is removed, then confirm or cancel runs, and close always runs last |

## Left out

- Rendering: JSX, styles, icons, `console` output and the display-only components are not part of this model.
- HTTP transport: each server call is the `Outcome` it settled with. The endpoint helpers are not part of this model, and neither is the choice of cuisine endpoint by restaurant id in `loadCuisines`.
- Concurrency: the `mounted` flags of the effects, the in-flight de-duplication of refresh and interactive login, and the interleaving of several failed requests are not modelled. Each refresh wave is taken as one sequential step.
- Interactive login: the `prompt` dialogs are reduced to whether the login they lead to succeeded (`AfterInteractiveLogin`).
- Storage and cookies: entries are held already parsed, so JSON encoding and parse failures are not modelled. The refresh cookie is reduced to whether logout expired it.
- Floating point: numbers are integers plus `NaN`. Prices are whole minor units. `parseFloat` fields record their text, and `toFixed` formatting is left out.
- `Number()` and `parseInt`: only plain digit strings are read as numbers. Signs, exponents, hexadecimal, `Infinity` and overflow are not modelled.
- `toLowerCase`: only ASCII letters are folded.
- File uploads: FormData contents are not modelled; each upload is reduced to whether it was attempted and whether it failed.
- `setTimeout`: the toast store's auto-removal timers are recorded as scheduled, never fired.
- Requests without a config object (`original` undefined) are not modelled; every failed request has one.
- Spreading a value that is not an object (`{ ...c }` for a string or an array) yields no fields in this model.
- `AddRestaurant.AddRestaurantForm.HandleScheduleChange`: the schedule is a record with fixed fields, so a "day_"/"day." name that is not a weekday, or any other input name the form does not render, changes nothing here, where the source would add a new key to `operational_days` or to the schedule object.
- `ApiClient.UnwrapFirst`: `None` (empty list) and `Some(Null)` (a list whose first element is null) are kept apart here; the source returns the same `null` for both.
- `StatusSetup.StatusScreen.ChooseFixedState`: only the five states of the colour map select a colour. Prototype keys such as "constructor", which the source's object lookup would also find, are not modelled.
- `handleEdit` in the status, menu and subcategory screens only logs, so it is not modelled. Plain input bindings are left out too, except the search term, the category name and the fixed state.
- The cancel path of the category delete confirmation is only the toast closing, which the toast store models.
- The outer `catch` of the submission ("General error while saving restaurant data.") is not modelled. Every step has its own `try` block, and nothing between them can throw in this model. Hiding the form after a successful save is rendering state and is left out too.
- The service's request interceptor (src/services/Login.tsx:131-143) adds the header the same way as `ApiClient.Request.AttachAuth` with the prefix "Bearer", and has no row of its own.

## Findings

| source | as written | input that shows it | evidently intended | confidence | as-written member | corrected member |
|---|---|---|---|---|---|---|
| src/api/axiosInstance.ts:101-125 | the request that starts a refresh enqueues its continuation only after `releaseAll` and the `finally` have run, so its own refresh never settles it | one request failing with 401 "Token expired." while no refresh runs: the refresh settles the empty queue, then the request waits in the queue with no refresh pending | the initiating request is resubmitted with the new token (or rejected) by the refresh it started | not executed | ApiClient.InitiatorLeftWaiting (ApiClient.RefreshCoordinator.OnRefreshSettled) | ApiClient.CorrectedSettlesInitiator (ApiClient.RefreshCoordinator.OnRefreshSettledCorrected) |
