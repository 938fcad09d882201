# Telegram order bot: a Dafny model of its ordering and sign-in logic

This project models the deterministic core of a Telegram Mini App for ordering
food. The app is a React front end backed by Supabase, plus one serverless
endpoint. The model covers four areas:

- **Telegram sign-in.** The `initData` check of the validation endpoint covers the
  method and input guards, the data-check string, and the HMAC-SHA-256
  signature comparison. It also covers the one-day freshness window and the
  create-or-update of the `users` row. Beside it sit the client-side helpers:
  detecting the Mini App, accepting the endpoint's answer, and the main button.
  Last comes the pseudo e-mail session helper.
- **Client authentication state and access gating.** The auth provider's fields
  `user`, `userRole`, `isLoading` and `error` are changed by its sign-in,
  sign-up, sign-out and session-change handlers. The route guard decides
  between four outcomes. The navigation bar gates its links and shows a cart
  badge and a signed-in area.
- **Cart, add-on selections and prices.** This covers cart-item ids, merging on
  add, removal and quantity updates, and the derived totals. It also covers
  the add-on defaults, toggles, prices and required-add-on checks of the three
  product pages, the add-on summary text of the cart page, and the catalogue
  transform with its sorted category list.
- **Orders, checkout, administration and forms.** This covers the order row
  transform and the optimistic list updates of the orders provider, the order
  proxy, and how checkout assembles an order. It also covers the admin status
  filter and its buttons, the product editor, and the ordered validators of
  the register, login, reset-password, forgot-password and profile pages.
  Last come the class-name, empty-object and query-parameter utilities.

Every call into Supabase, `fetch`, the clock, `JSON.parse` and HMAC is a
parameter of the operation that makes it. A backend answer is an
`Outcome<T>`, either `Ok(value)` or `Err(code, msg)`. React state becomes the
fields of a class whose methods update them. Loops in the source become
methods with loop invariants, each proved against a function that specifies
it. Money is an integer number of cents. Order amounts, where the source
computes tax as a float, are exact `real` numbers.

A JavaScript object used as a record (add-on selections, for one) is an
association list in key-insertion order, which is the order `Object.entries`
visits keys that are not integer-like. A list lets the model state how
`Object.entries` orders such keys.

The modules, one per source file, are:

| module | file |
|---|---|
| `Common`, `FormQuery`, `KeySort`, `Types` | shared: options and outcomes, `trim`/`join`/`parseInt`/`String(n)`, `URLSearchParams`, key sorting, the shapes of `src/types/index.ts` |
| `TelegramValidate` | `api/auth/telegram/validate.ts` |
| `TelegramClient` | `src/lib/telegram.ts` |
| `SupabaseSession` | `src/lib/supabase.ts` |
| `AuthContext` | `src/context/AuthContext.tsx` |
| `ProtectedRoute` | `src/components/auth/ProtectedRoute.tsx` |
| `Nav` | `src/components/layout/UnifiedNav.tsx` |
| `Cart` | `src/context/CartContext.tsx` |
| `ProductDetail` | `src/pages/ProductDetailPage.tsx` |
| `ProductPage` | `src/pages/ProductPage.tsx` |
| `ProductList` | `src/pages/ProductListPage.tsx` |
| `CartPage` | `src/pages/CartPage.tsx` |
| `ProductContext` | `src/context/ProductContext.tsx` |
| `OrderRows` | the order row transform shared by `src/context/OrderContext.tsx`, `src/api/orderProxy.ts` and `src/pages/AdminOrdersPage.tsx` |
| `Orders` | `src/context/OrderContext.tsx` |
| `OrderProxy` | `src/api/orderProxy.ts` |
| `Checkout` | `src/pages/CheckoutPage.tsx` |
| `AdminOrders` | `src/pages/AdminOrdersPage.tsx` |
| `AdminPage` | `src/pages/AdminPage.tsx` |
| `Register`, `Login`, `ResetPassword`, `ForgotPassword`, `Profile` | the five form pages under `src/pages/` |
| `Utils` | `src/lib/utils.ts` |

## Model

| member | source | states |
|---|---|---|
| Common.OrElse | api/auth/telegram/validate.ts:64 | `a \|\| b` on an optional string is the string when it is present and non-empty, the fallback otherwise |
| Common.OrNull | api/auth/telegram/validate.ts:90-93 | `x \|\| null` keeps a present non-empty string and turns the empty string and absence into `null` |
| Common.TrimEmptyIffAllSpace | src/pages/RegisterPage.tsx:29 | `s.trim()` is empty exactly when `s` consists of white space only, which is what the blank-field checks test |
| Common.Trim | src/pages/CheckoutPage.tsx:40 | `s.trim()` neither starts nor ends with white space and is no longer than `s`; `TrimIsInner`: it is one stretch of `s` with only white space around it; `TrimEmptyIffAllSpace`: empty exactly for all-white-space text |
| Common.TrimIsInner | src/pages/CheckoutPage.tsx:40 | what `trim()` keeps is a contiguous stretch of the string, with only white space before and after it |
| Common.Join | api/auth/telegram/validate.ts:44 | `join` of no parts is empty, of one part is that part, and is non-empty when its first part is |
| Common.TrimStart | src/pages/RegisterPage.tsx:29 | what is left after leading white space is removed is a suffix of the text that starts with a non-space, everything cut being white space |
| Common.TrimEnd | src/pages/RegisterPage.tsx:29 | what is left after trailing white space is removed is a prefix of the text that ends with a non-space, everything cut being white space |
| Common.IntToString | src/lib/supabase.ts:54 | `String(n)` is never empty and starts with `-` exactly for negative numbers |
| Common.IntToStringInjective | src/lib/supabase.ts:54 | `String(n)` renders distinct integers differently |
| Common.ParseIntOfIntToString | api/auth/telegram/validate.ts:56 | `parseInt(String(i), 10)` gives back `i` for every integer, negative ones included |
| Common.ParseInt | api/auth/telegram/validate.ts:56 | `ParseIntNaN`: `parseInt(s, 10)` is `NaN` exactly when, after leading white space, the text starts neither with a digit nor with a sign followed by a digit; `ParseIntOfIntToString`: it reads back `String(i)` |
| Common.ParseIntNaN | api/auth/telegram/validate.ts:56 | `parseInt` is `NaN` exactly when, after leading white space, there is neither a digit nor a sign followed by a digit; a negative result needs a leading `-` |
| Common.FormatCents | src/pages/CartPage.tsx:59-60 | `toFixed(2)` of an amount in cents has digits on both sides of a point that sits third from the end |
| Common.FormatCentsValue | src/pages/CartPage.tsx:59-60 | the digits of the rendered amount, without the point, denote the number of cents |
| Common.StrLtIrreflexive | src/context/ProductContext.tsx:93-94 | the string order used for sorting never puts a string before itself |
| Common.StrLtTotal | src/context/ProductContext.tsx:93-94 | any two different strings are ordered one way or the other |
| Common.StrLtAsymmetric | src/context/ProductContext.tsx:93-94 | no two strings are each before the other |
| Common.StrLtTransitive | src/context/ProductContext.tsx:93-94 | the order is transitive |
| Common.UpperChar | src/pages/AdminOrdersPage.tsx:188 | `toUpperCase` maps `a`-`z` to `A`-`Z` and leaves every other character alone |
| FormQuery.Split | api/auth/telegram/validate.ts:30 | splitting on a separator gives at least one piece, none containing the separator |
| FormQuery.PlusToSpace | api/auth/telegram/validate.ts:30 | every `+` of a form value reads as a space, every other character as itself |
| FormQuery.Get | api/auth/telegram/validate.ts:31 | `params.get(name)` is `null` exactly when no pair has that name |
| FormQuery.GetIsFirst | api/auth/telegram/validate.ts:31 | `get` answers with the value of the first pair of that name |
| FormQuery.Delete | api/auth/telegram/validate.ts:38 | `params.delete(name)` removes every pair of that name and keeps every other pair, as many times as it occurred |
| FormQuery.ParseOfSerialize | api/auth/telegram/validate.ts:30 | parsing a query string built from plain pairs gives back those pairs, in order |
| FormQuery.Parse | api/auth/telegram/validate.ts:30 | `new URLSearchParams(init)`: through `ParseOfSerialize`, a query string built from plain pairs reads back as those pairs, in order; `Get` and `Delete` state what the handler reads from it |
| KeySort.SortByKey | api/auth/telegram/validate.ts:41-42 | the sort returns a permutation of its input |
| KeySort.SortByKeySorted | api/auth/telegram/validate.ts:41-42 | the sort returns entries in non-decreasing key order |
| KeySort.SortByKeyDistinct | api/auth/telegram/validate.ts:41-42 | sorting keeps distinct keys distinct |
| KeySort.SortedPermutationUnique | api/auth/telegram/validate.ts:41-44 | two key-sorted permutations of the same entries with distinct keys are equal, so the sorted order does not depend on the input order |
| TelegramValidate.Hex | api/auth/telegram/validate.ts:48 | `digest('hex')` writes two characters per byte |
| TelegramValidate.UnhexHex | api/auth/telegram/validate.ts:48 | the hex text determines the digest: reading it back gives the bytes |
| TelegramValidate.DataCheckString | api/auth/telegram/validate.ts:37-44 | the pairs other than `hash`, sorted by name, one `name=value` per line; `DataCheckStringOrderIndependent` proves it does not depend on the order `initData` lists them in |
| TelegramValidate.Signature | api/auth/telegram/validate.ts:46-48 | the hex HMAC of the data-check string under the key HMAC("WebAppData", bot token); `ForgedHashRefused` and `CheckAccepts` state that only a `hash` equal to it gets past the signature check, and `UnhexHex` that the hex text determines the digest |
| TelegramValidate.AuthDate | api/auth/telegram/validate.ts:56 | `MissingAuthDateIsEpoch`: a missing `auth_date` reads as 0; `NonNumericAuthDatePasses`: a non-empty one reads as `NaN` exactly when, after leading white space, it starts neither with a digit nor with a sign and a digit |
| TelegramValidate.Outdated | api/auth/telegram/validate.ts:57-61 | `FreshnessBoundary`: data exactly a day old is fresh and a second older is not; `NonNumericAuthDatePasses`: `NaN` is never outdated; `OutdatedRefused`: it is exactly the condition of the 401 `Authentication data is outdated` answer |
| TelegramValidate.DataCheckStringOrderIndependent | api/auth/telegram/validate.ts:38-44 | the data-check string is the same for every ordering of the `initData` pairs |
| TelegramValidate.LookupUser | api/auth/telegram/validate.ts:72-78 | the `single()` lookup returns the row exactly when the query succeeds and the row exists, and fails with `PGRST116` when there is no row |
| TelegramValidate.Check | api/auth/telegram/validate.ts:14-69 | the ordered checks: a request passes them only with a user object that has a non-zero `id`, and no refusal is a 200. `CheckAccepts` states exactly which requests pass, and `GuardsInOrder`, `ForgedHashRefused`, `OutdatedRefused` and `UserDataRefused` the status and message of each refusal |
| TelegramValidate.GuardsInOrder | api/auth/telegram/validate.ts:21-35 | for a POST, a missing `initData` gets 400 `Missing initData`; otherwise a missing bot token gets 500 `Bot token not configured`; otherwise a missing `hash` gets 400 `Invalid initData: missing hash`; none reads or writes the table |
| TelegramValidate.OutdatedRefused | api/auth/telegram/validate.ts:55-61 | a correctly signed request gets 401 `Authentication data is outdated`, without touching the table, exactly when its `auth_date` is more than 86400 seconds before now |
| TelegramValidate.UserDataRefused | api/auth/telegram/validate.ts:63-128 | for a signed, fresh request, a `user` that is `null` or not JSON gets 500 `Internal server error`, and one that is not an object with a non-zero `id` gets 400 `Invalid user data`; neither touches the table |
| TelegramValidate.UserJsonOf | api/auth/telegram/validate.ts:63-64 | what `JSON.parse` makes of the signed `user` parameter or `{}`; `UserDataRefused` and `CheckAccepts` state how the handler answers each result |
| TelegramValidate.CheckAccepts | api/auth/telegram/validate.ts:14-69 | the checks pass exactly for a POST with `initData` and a configured bot token whose `hash` equals the signature, whose `auth_date` is not outdated, and whose `user` parses to an object with a non-zero `id`; that object is the user passed on |
| TelegramValidate.Upsert | api/auth/telegram/validate.ts:71-124 | the database step always reads the table and answers 200 or 500; `UpsertOutcome` states when it answers 200, which row it inserts or refreshes, and that a failure writes nothing |
| TelegramValidate.HandleSpec | api/auth/telegram/validate.ts:12-128 | the handler's answer and table; `ValidateEndpoint.Handle` is proved equal to it, and `NonPostRefused`, `GuardsInOrder`, `ForgedHashRefused`, `OutdatedRefused`, `UserDataRefused`, `SuccessExactly` and `FailureWritesNothing` state its answers |
| TelegramValidate.UpsertOutcome | api/auth/telegram/validate.ts:72-124 | the database step answers 200 exactly when the lookup fails with nothing other than "no row" and the write succeeds. It then inserts or refreshes that user's row; every failure leaves the table as it was |
| TelegramValidate.DecideOutcome | api/auth/telegram/validate.ts:71-124 | once the checks have decided, the handler answers 200 exactly for an accepted request whose lookup and write succeed; only then does the table change |
| TelegramValidate.NonPostRefused | api/auth/telegram/validate.ts:14-16 | any method other than POST gets 405 `Method not allowed` before anything else is looked at, and the table is not read |
| TelegramValidate.ForgedHashRefused | api/auth/telegram/validate.ts:46-53 | a hash that differs from the hex HMAC of the data-check string gets 401 `Invalid hash`, and the table is neither read nor written |
| TelegramValidate.QueriedOnlyIfAuthentic | api/auth/telegram/validate.ts:14-76 | the users table is read only for requests that passed every check |
| TelegramValidate.SuccessExactly | api/auth/telegram/validate.ts:12-124 | 200 `{validated: true, user}` comes exactly for requests that pass the checks and whose lookup and write succeed. It echoes the parsed user, and the table then maps that id to the new or refreshed row, every other row unchanged |
| TelegramValidate.FailureWritesNothing | api/auth/telegram/validate.ts:78-117 | every answer other than 200 leaves the table unchanged |
| TelegramValidate.RefreshKeepsIdentity | api/auth/telegram/validate.ts:102-112 | an update keeps `telegram_id`, sets `updated_at`, and stores `last_name` only when it is non-empty |
| TelegramValidate.FreshnessBoundary | api/auth/telegram/validate.ts:56-61 | `Outdated` holds of data 86401 seconds old but not of data exactly 86400 seconds old; `OutdatedRefused` makes that the boundary of the handler's 401 answer |
| TelegramValidate.NonNumericAuthDatePasses | api/auth/telegram/validate.ts:56-61 | for every non-empty `auth_date`: it parses to `NaN` exactly when, after leading white space, it starts neither with a digit nor with a sign followed by a digit; such data is never outdated |
| TelegramValidate.MissingAuthDateIsEpoch | api/auth/telegram/validate.ts:56 | a missing `auth_date` counts as 0, so it is stale once a day has passed since 1970 |
| TelegramValidate.ValidateEndpoint.constructor | api/auth/telegram/validate.ts:7-10 | the endpoint starts with the configured bot token and the given users table |
| TelegramValidate.ValidateEndpoint.Handle | api/auth/telegram/validate.ts:12-129 | the handler's answer and the users table afterwards are those of the decision tree `HandleSpec`, about which the lemmas above are proved |
| TelegramValidate.ValidateEndpoint.Store | api/auth/telegram/validate.ts:71-124 | the lookup, then the insert or update, answer and write as `Upsert` says |
| TelegramClient.IsTelegramWebApp | src/lib/telegram.ts:62-64 | `window.Telegram?.WebApp !== undefined`; `GetTelegramWebApp` returns an instance only when it holds, and `NullWebAppDisagreement` shows that a `null` `WebApp` is the one case where it holds with no instance |
| TelegramClient.GetTelegramWebApp | src/lib/telegram.ts:62-72 | `getTelegramWebApp()` returns the instance exactly when `window.Telegram.WebApp` holds one, and then the app is detected as a Mini App |
| TelegramClient.GetTelegramUser | src/lib/telegram.ts:111-114 | `getTelegramUser()` is `null` when there is no instance or the instance has no user, and otherwise is that user |
| TelegramClient.NullWebAppDisagreement | src/lib/telegram.ts:62-72 | a `WebApp` property holding `null` is the one case where the app is detected as a Mini App yet no instance is returned |
| TelegramClient.ClientAndServerFreshness | src/lib/telegram.ts:105-108 | the client's test is strict and the endpoint's is not. Data exactly one day old is not recent for the client but is accepted by the endpoint; at every other age the two agree |
| TelegramClient.IsInitDataRecent | src/lib/telegram.ts:105-108 | `ClientAndServerFreshness`: it agrees with the endpoint's freshness test except for data exactly one day old, which it calls stale while the endpoint accepts it |
| TelegramClient.ValidateTelegramWebAppData | src/lib/telegram.ts:75-102 | the body of an ok response with `validated` and `user` set is returned, and an answer is returned only from such a response. A failed `fetch` and an unreadable body of an ok response are rethrown unchanged. A non-ok response throws the server's `error` or the default message; an ok but unvalidated one throws `Invalid Telegram authentication data` |
| TelegramClient.MainButton.constructor | src/lib/telegram.ts:26-41 | a fresh button has the given colours, no text, no handlers and no calls |
| TelegramClient.MainButton.Configure | src/lib/telegram.ts:144-169 | the text is set and the handler registered. The colours change only when given. The button is inactive only for `isActive: false`, shows progress only for a truthy `showProgress`, and ends visible, with the calls in source order |
| TelegramClient.ButtonCallsShape | src/lib/telegram.ts:155-169 | `show()` is the last call. `disable()` is called exactly for `isActive: false`, and `enable()` otherwise; `showProgress(true)` is called exactly for a truthy `showProgress`, and `hideProgress()` otherwise |
| TelegramClient.SetMainButton | src/lib/telegram.ts:132-171 | outside Telegram nothing happens. Inside, the main button receives exactly the calls above and ends visible with the given text |
| SupabaseSession.GetUser | src/lib/supabase.ts:16-25 | `getUser()` is `null` when the call reports an error, the user otherwise |
| SupabaseSession.SignOut | src/lib/supabase.ts:27-36 | `signOut()` is true exactly when the call reports no error |
| SupabaseSession.PseudoEmail | src/lib/supabase.ts:54 | `PseudoEmailInjective`: different Telegram ids get different addresses; `NewUserSignsUp` and `ExistingUserSignsIn`: it is the address signed up and signed in with |
| SupabaseSession.PseudoEmailInjective | src/lib/supabase.ts:54 | different Telegram ids get different pseudo e-mail addresses |
| SupabaseSession.CreateTelegramSession | src/lib/supabase.ts:39-121 | the users lookup always comes first. A lookup error other than `PGRST116` returns `null` with no further call |
| SupabaseSession.NewUserSignsUp | src/lib/supabase.ts:60-80 | a Telegram user without a row is signed up under the pseudo e-mail address and nothing else is called; the result is the created user, or `null` on error |
| SupabaseSession.ExistingUserSignsIn | src/lib/supabase.ts:83-116 | a user with a row is signed in and a successful sign-in returns its user. `Invalid login credentials` leads to one reset: a failed reset gives `null` with no retry, a successful one leads to exactly one retry whose user is returned (`null` when the retry fails). Any other sign-in error gives `null` with no retry |
| SupabaseSession.CallsBounded | src/lib/supabase.ts:39-121 | whatever the backend answers, at most four calls are made, an existing user is never signed up, and the password is reset at most once |
| AuthContext.RoleOf | src/context/AuthContext.tsx:125-129 | the role is the joined `roles.name` when the role row and its role are there, and `user` otherwise |
| AuthContext.UserOf | src/context/AuthContext.tsx:109-116 | a user read from a row takes `telegram_id`, or 0 when it is missing, and every other field as stored |
| AuthContext.AuthProvider.constructor | src/context/AuthContext.tsx:55-59 | the provider mounts with no user, no role, no error, outside Telegram, and loading |
| AuthContext.AuthProvider.SignInWithTelegram | src/context/AuthContext.tsx:271-322 | it succeeds exactly when the validation returned a validated answer and the lookup failed with nothing but "no row". Success sets the Telegram user and the row's role, or `user` for a new user; failure sets the error and keeps user and role. Loading ends false either way |
| AuthContext.AuthProvider.LoadSessionUser | src/context/AuthContext.tsx:99-130 | a session whose user row was read sets that user and its role. A failed or empty read changes nothing |
| AuthContext.AuthProvider.InitAuth | src/context/AuthContext.tsx:66-143 | it signs in with Telegram exactly when the Mini App has both an unsafe user and init data. Outside Telegram it loads the session's user, or in development sets the stand-in user with role `user`. Loading ends false, and user and role stay set or unset together |
| AuthContext.AuthProvider.OnAuthChange | src/context/AuthContext.tsx:148-186 | no session clears both user and role. A session whose user read fails leaves them unchanged; one whose read succeeds sets the user and its role |
| AuthContext.AuthProvider.SignInWithEmail | src/context/AuthContext.tsx:194-214 | it returns true exactly when the password sign-in reports no error. Otherwise it sets that error; it never changes user or role, and loading ends false |
| AuthContext.AuthProvider.SignUpWithEmail | src/context/AuthContext.tsx:217-268 | a failed sign-up inserts nothing. A created account gets the profile row, and the role row with role id 1 only when the profile insert succeeded. It returns true exactly when every step it reached succeeded, with the first error otherwise |
| AuthContext.AuthProvider.SignOut | src/context/AuthContext.tsx:325-345 | success clears user and role and returns true. An error is recorded, returns false and keeps user and role; loading ends false |
| AuthContext.IsAdmin | src/context/AuthContext.tsx:62 | `userRole === 'admin'`; `ProtectedRoute.SignedInAccess`: a signed-in user for whom it holds passes every route |
| ProtectedRoute.Guard | src/components/auth/ProtectedRoute.tsx:14-46 | while loading the guard shows the loading view whatever else holds. Without a user it redirects to login carrying the location. An admin passes any route; another user is denied exactly when a role is asked for and theirs differs. `GuardFor` feeds it the provider's `isLoading`, `user` and `userRole`, with `isAdmin` being `userRole === 'admin'` |
| ProtectedRoute.SignedInAccess | src/components/auth/ProtectedRoute.tsx:36-46 | once loaded, a signed-in user passes exactly when they are an admin or hold the required role. A merchant is denied a route for the default role `user` |
| ProtectedRoute.SignedOutRedirects | src/components/auth/ProtectedRoute.tsx:31-33 | a loaded provider redirects to login exactly when no user is signed in, and a signed-in user always has a role |
| Nav.Visible | src/components/layout/UnifiedNav.tsx:33 | the filter keeps at most the links it is given |
| Nav.VisibleMembers | src/components/layout/UnifiedNav.tsx:33 | a link is shown exactly when it is listed and is either for everyone or shown to the admin |
| Nav.Labels | src/components/layout/UnifiedNav.tsx:65 | the captions of the links, in order |
| Nav.IsAdminUser | src/components/layout/UnifiedNav.tsx:24 | `ShownLinks`: the Admin link is shown exactly when it holds, that is for the user with id 12345678 |
| Nav.ShownLinks | src/components/layout/UnifiedNav.tsx:24-33 | the bar shows Home, Menu and Orders in that order, followed by Admin exactly when the user's id is 12345678 |
| Nav.CartBadge | src/components/layout/UnifiedNav.tsx:74-78 | the badge is shown exactly for a positive total quantity and reads as that number |
| Nav.BadgeShownIffCartNotEmpty | src/components/layout/UnifiedNav.tsx:113-117 | a cart whose lines each hold at least one piece shows the badge exactly when it is not empty |
| Nav.TotalQuantityAtLeastCount | src/context/CartContext.tsx:147-149 | with at least one piece per line, the total quantity is at least the number of lines |
| Nav.AuthAreaFor | src/components/layout/UnifiedNav.tsx:120-135 | Telegram with a user shows the user's first name, and the photo only when `photo_url` is set. Outside Telegram it shows the profile link when authenticated and the login button otherwise; Telegram without a user shows nothing |
| Nav.NavClass | src/components/layout/UnifiedNav.tsx:53-56 | the mobile bar's classes begin with `md:hidden fixed bottom-0`, and the desktop bar's end with `hidden md:block` |
| Utils.Kept | src/lib/utils.ts:5-7 | `filter(Boolean)` keeps only non-empty strings, and no more of them than there were arguments |
| Utils.KeptAppend | src/lib/utils.ts:5-7 | the filter distributes over concatenated argument lists |
| Utils.Cn | src/lib/utils.ts:5-7 | `CnDropsFalsy`: falsy arguments leave no trace and `cn()` is empty; `CnAllTruthy`: truthy arguments are joined with single spaces |
| Utils.CnDropsFalsy | src/lib/utils.ts:5-7 | a falsy argument anywhere leaves the class string as if it were absent, and `cn()` is empty |
| Utils.CnAllTruthy | src/lib/utils.ts:5-7 | with only non-empty string arguments, `cn` joins them all in order with single spaces |
| Utils.IsEmptyIffNoKey | src/lib/utils.ts:58-60 | an object is empty exactly when no key is found in it |
| Utils.IsEmpty | src/lib/utils.ts:58-60 | `IsEmptyIffNoKey`: an object has no own keys exactly when no key is found in it |
| Utils.GetQueryParams | src/lib/utils.ts:68-77 | the loop builds the record in which each parameter of the query string in turn assigns its value to its key |
| Utils.Record | src/lib/utils.ts:68-77 | `RecordKeys`: its keys are exactly the parameter names; `RecordLastWins`: each holds the value of the name's last pair; `GetQueryParams`: the loop builds it |
| Utils.RecordKeys | src/lib/utils.ts:68-77 | the record's keys are exactly the parameter names |
| Utils.RecordLastWins | src/lib/utils.ts:72-74 | a name given several times keeps the value of its last occurrence |
| Types.FindProduct | src/context/ProductContext.tsx:109-111 | the product found is the first in the list with the id asked for (no earlier product has it); none is found exactly when no product has that id |
| Types.Lookup | src/pages/ProductDetailPage.tsx:58 | reading a key gives a value the object holds under it, and `undefined` exactly when no entry has that key |
| Types.Put | src/pages/ProductDetailPage.tsx:60-69 | after assigning a key it reads back the new value, every other key reads as before, an existing key keeps its place and a new key goes last |
| Types.Remove | src/pages/ProductDetailPage.tsx:66 | after `delete` the key is absent, every other key reads as before, and the object is no larger |
| Types.LookupSnoc | src/pages/ProductDetailPage.tsx:62 | an entry added at the end is seen only by keys the object did not already hold |
| Types.PutKeepsWellFormed | src/pages/ProductDetailPage.tsx:60-69 | assigning a key never makes an object hold a key twice |
| Types.RemoveKeepsWellFormed | src/pages/ProductDetailPage.tsx:66 | deleting a key never makes an object hold a key twice |
| Types.RemoveAfterAdd | src/pages/ProductDetailPage.tsx:62-67 | deleting a key just added to an object without it gives the object back |
| Types.PutPut | src/pages/ProductDetailPage.tsx:60-69 | of two assignments to one key only the second is left |
| Types.PutUnchanged | src/pages/ProductDetailPage.tsx:56 | assigning a key the value it already holds changes nothing, so the spread copy equals the original |
| Types.FindType | src/context/CartContext.tsx:51 | the add-on type found has the id asked for and is in the list; none is found exactly when no type has that id |
| Types.FindOption | src/context/CartContext.tsx:57 | the option found is the first in the list with the id asked for (no earlier option has it); none is found exactly when no option has that id |
| Types.FindTypeSnoc | src/pages/ProductDetailPage.tsx:32-44 | a type added at the end is found only by ids no earlier type has |
| Types.PutEachKeys | src/pages/ProductDetailPage.tsx:32-44 | every key of the built object is the id of an add-on type that gave it a value |
| Types.PutEachLookup | src/pages/ProductDetailPage.tsx:32-44 | with distinct type ids the built object holds under each id exactly the value derived from that type, and nothing under other keys |
| Types.PutEachWellFormed | src/pages/ProductDetailPage.tsx:32-44 | the built object never holds a key twice |
| Types.FindDefault | src/pages/ProductListPage.tsx:17 | the option found is the first default option of the list (no earlier option is a default); none is found exactly when no option is a default |
| Types.WithoutId | src/pages/ProductDetailPage.tsx:60 | filtering out an id removes it and keeps every other id the list had, adding none; `WithoutIdAppend`: the kept ids stay in order |
| Types.WithoutIdAppend | src/pages/ProductDetailPage.tsx:60 | filtering a concatenation is concatenating the filtered parts, so the kept ids keep their order |
| Types.WithoutAppended | src/pages/ProductDetailPage.tsx:60-62 | filtering out an id just appended to a list without it gives the list back |
| Types.FindTypeIsFirst | src/pages/ProductPage.tsx:143-150 | `find` answers with the first add-on type carrying that id |
| Types.StatusNamed | src/types/index.ts:64-71 | a string names a status exactly when it is one of the six enum values, and then names that one |
| Cart.EntryTexts | src/context/CartContext.tsx:32 | one `key:value` text per entry |
| Cart.GenerateCartItemId | src/context/CartContext.tsx:27-35 | without add-ons the id is the product id; with them it is the product id, a `-`, then the add-on text |
| Cart.CartItemIdOrderIndependent | src/context/CartContext.tsx:30-33 | two selections holding the same entries, inserted in any order, give the same cart-item id |
| Cart.KnownIds | src/context/CartContext.tsx:57-58 | the kept option ids are all options the add-on type has |
| Cart.UnknownOptionsAddNothing | src/context/CartContext.tsx:56-61 | option ids the add-on type does not have add nothing to the price |
| Cart.OptionsPriceAppend | src/context/CartContext.tsx:56-61 | the price of two runs of picks is the sum of their prices |
| Cart.KnownEntries | src/context/CartContext.tsx:51-52 | the kept entries all name add-on types the product has |
| Cart.UnknownTypesAddNothing | src/context/CartContext.tsx:50-52 | entries under add-on types the product does not have add nothing to the price |
| Cart.UnitPrice | src/context/CartContext.tsx:47-73 | the base price plus what each entry adds; `UnitPriceWithoutKnownEntries`: the base price when no known type is selected; `UnknownTypesAddNothing` and `UnknownOptionsAddNothing`: unknown types and options add nothing; `CalculateUnitPriceWithAddons`: the loop computes it |
| Cart.UnitPriceWithoutKnownEntries | src/context/CartContext.tsx:47-49 | without an add-on list, or with only unknown add-on types selected, the unit price is the base price |
| Cart.SumOptionPrices | src/context/CartContext.tsx:56-61 | the loop adds up the additional prices of the picked options the type has |
| Cart.CalculateUnitPriceWithAddons | src/context/CartContext.tsx:47-73 | the loop gives the base price plus what each selected entry adds, one option or a list of them |
| Cart.FindItem | src/context/CartContext.tsx:80 | the line found is the first in the cart with the id asked for (no earlier line has it); none is found exactly when no line has that id |
| Cart.WithoutItem | src/context/CartContext.tsx:105 | the remaining lines are exactly the lines whose id differs, and there are no more of them than before; `WithoutItemAppend`: they keep their order |
| Cart.WithoutItemAppend | src/context/CartContext.tsx:104-107 | filtering a concatenation is concatenating the filtered parts, so the remaining lines keep their order |
| Cart.WithoutItemKeepsUnique | src/context/CartContext.tsx:104-107 | removing a line keeps ids unique |
| Cart.PositiveOnly | src/context/CartContext.tsx:115 | the remaining lines are exactly the lines with a positive quantity, and no more than before |
| Cart.PositiveOnlyKeepsPositive | src/context/CartContext.tsx:115 | a list whose lines are all positive passes the filter unchanged |
| Cart.PositiveOnlyKeepsUnique | src/context/CartContext.tsx:115 | the filter keeps ids unique |
| Cart.DeliveryFee | src/context/CartContext.tsx:137-140 | $5.00 for a non-empty cart, nothing for an empty one |
| Cart.AddedToCart | src/context/CartContext.tsx:75-100 | `AddToCartShape`: an existing line is merged and repriced, a new one appended, ids stay unique; `AddToCartTotalQuantity`: the total quantity rises by exactly the quantity added |
| Cart.AddToCartShape | src/context/CartContext.tsx:75-100 | adding an existing line raises its quantity and reprices it at the new unit price, leaving the others; adding a new one appends it; ids stay unique |
| Cart.TotalQuantityPointUpdate | src/context/CartContext.tsx:147-149 | changing one line's quantity changes the total quantity by the same amount |
| Cart.TotalQuantityEqual | src/context/CartContext.tsx:147-149 | lists with the same quantities line by line have the same total quantity |
| Cart.AddToCartTotalQuantity | src/context/CartContext.tsx:75-100 | adding `quantity` units, merged or appended, raises the total quantity by exactly `quantity` |
| Cart.WithQuantity | src/context/CartContext.tsx:109-118 | `UpdateQuantityShape`: a positive update keeps every target line with the new quantity and price, non-positive lines are dropped, the other positive lines stay and nothing else appears; `UpdateQuantityInPlace`: on a cart of positive lines every line keeps its place; `WithQuantityKeepsUnique`: ids stay unique |
| Cart.UpdateQuantityShape | src/context/CartContext.tsx:109-118 | after an update no line has a quantity of zero or less; a positive quantity keeps every target line, set to that quantity and repriced at its unit price; a non-positive one removes them; other positive lines stay; every line of the result is an old non-target line or a target line |
| Cart.UpdateQuantityInPlace | src/context/CartContext.tsx:109-118 | when every line is positive and the new quantity is positive, the result has the same length and each position holds the old line, repriced exactly when it is a target line |
| Cart.WithQuantityKeepsUnique | src/context/CartContext.tsx:109-118 | an update keeps ids unique, so the add lemmas apply after it |
| Cart.TotalItems | src/context/CartContext.tsx:146 | `totalItems` is zero exactly for an empty cart; `TotalItemsChanges`: how adding and removing change it |
| Cart.TotalItemsChanges | src/context/CartContext.tsx:75-146 | adding raises the line count by one exactly when a new line is appended; removing a present id with unique ids lowers it by one |
| Cart.RemoveShape | src/context/CartContext.tsx:104-107 | removal leaves no line with that id, keeps every other line, and with unique ids shortens the cart by one |
| Cart.RemoveOneOfUnique | src/context/CartContext.tsx:105 | with unique ids, removing a present id drops exactly one line |
| Cart.NoneToRemove | src/context/CartContext.tsx:105 | removing an id no line has changes nothing |
| Cart.Subtotal | src/context/CartContext.tsx:129-131 | the sum of the lines' totals; `TotalBreakdown` relates it to the total |
| Cart.Tax | src/context/CartContext.tsx:133-135 | 7% of the subtotal, kept exact; `TotalBreakdown` relates it to the total |
| Cart.Total | src/context/CartContext.tsx:142-144 | `TotalBreakdown`: the subtotal with 7% added, plus $5.00 exactly when the cart is not empty |
| Cart.TotalQuantity | src/context/CartContext.tsx:147-149 | `TotalQuantityPointUpdate` and `TotalQuantityEqual`: a change to one line's quantity changes it by the same amount; `AddToCartTotalQuantity`: adding raises it by the quantity added |
| Cart.TotalBreakdown | src/context/CartContext.tsx:129-144 | the total is the subtotal with 7% tax added, plus $5.00 exactly when the cart is not empty |
| Cart.CartStore.constructor | src/context/CartContext.tsx:38-41 | the cart starts from the saved list |
| Cart.CartStore.AddToCart | src/context/CartContext.tsx:75-102 | the new list is the old one with the product added (see `AddToCartShape`) |
| Cart.CartStore.RemoveFromCart | src/context/CartContext.tsx:104-107 | the new list is the old one without the lines of that id, in their old order: for every cut of the old list, what remains of the front comes before what remains of the back |
| Cart.CartStore.UpdateQuantity | src/context/CartContext.tsx:109-118 | the new list is the old one with the quantity set and the non-positive lines dropped |
| Cart.CartStore.ClearCart | src/context/CartContext.tsx:120-123 | the cart is empty |
| Cart.CartStore.GetItemById | src/context/CartContext.tsx:125-127 | the line found is the first in the cart with that id (no earlier line has it); none is found exactly when no line has it |
| CartPage.PriceSuffix | src/pages/CartPage.tsx:60 | an option text gets a price suffix exactly when the option costs extra |
| CartPage.OptionTexts | src/pages/CartPage.tsx:56-63 | at most one non-empty text per picked id, and none at all when no picked id is an option of the type |
| CartPage.EntryDetail | src/pages/CartPage.tsx:48-75 | an entry under an unknown add-on type gives `null`; a text given is non-empty, and for a list it is the type name followed by the option texts joined with `, ` |
| CartPage.EntryDetails | src/pages/CartPage.tsx:47-76 | at most one text per entry, none of them empty |
| CartPage.AddonDetails | src/pages/CartPage.tsx:35-80 | an unknown product gives `Product details unavailable`, a product without add-ons `Addon definitions missing for this product`, each only when something was selected; an empty selection gives the empty text |
| CartPage.UnknownEntriesDropped | src/pages/CartPage.tsx:50-51 | the summary of a selection equals the summary of its entries under known add-on types |
| CartPage.KnownFront | src/pages/CartPage.tsx:50-51 | the kept entries all name add-on types the product has |
| CartPage.SummaryEmptyIff | src/pages/CartPage.tsx:76-79 | the summary has no parts exactly when every entry gives `null` |
| CartPage.SuffixSpellsPrice | src/pages/CartPage.tsx:60 | the suffix reads ` (+$`, the amount with two decimals, `)`, and its digits spell the option's price in cents |
| ProductContext.AddonOf | src/context/ProductContext.tsx:21-36 | an add-on type keeps its row's id and flags, and has one option per option row, none when the row has none |
| ProductContext.ProductOf | src/context/ProductContext.tsx:18-47 | a product keeps its row's id, name, price and availability, takes the category name or `Uncategorized`, and always has an add-on list with one type per add-on row |
| ProductContext.Transform | src/context/ProductContext.tsx:17-49 | one product per row, in row order |
| ProductContext.TransformedCategoriesNonEmpty | src/context/ProductContext.tsx:19 | no product has an empty category |
| ProductContext.Distinct | src/context/ProductContext.tsx:93 | the set keeps exactly the names the list has, each once |
| ProductContext.AsEntries | src/context/ProductContext.tsx:94 | the names, one entry each, in order |
| ProductContext.Keys | src/context/ProductContext.tsx:94 | the entries' names, in order |
| ProductContext.CategoryNames | src/context/ProductContext.tsx:93 | each product's category, in order |
| ProductContext.Categories | src/context/ProductContext.tsx:93-94 | `CategoriesSortedUnique`: exactly the categories some product has, each once, strictly ascending |
| ProductContext.CategoriesSortedUnique | src/context/ProductContext.tsx:93-94 | the category list names exactly the categories some product has, each once, in strictly ascending order |
| ProductContext.SortedNamesMembership | src/context/ProductContext.tsx:94 | sorting keeps exactly the names it was given |
| ProductContext.SortedNamesStrict | src/context/ProductContext.tsx:94 | distinct names come out in strictly ascending order |
| ProductContext.ByCategory | src/context/ProductContext.tsx:113-115 | exactly the products of that category are kept, no more of them than there were; `ByCategoryAppend`: in their order |
| ProductContext.ByCategoryAppend | src/context/ProductContext.tsx:113-115 | filtering a concatenation is concatenating the filtered parts, so the kept products keep their order |
| ProductContext.ByCategorySplit | src/context/ProductContext.tsx:113-115 | for every cut of the list, the matches of the front come before the matches of the back |
| ProductContext.ListedCategoryNonEmpty | src/context/ProductContext.tsx:93-94 | every listed category has at least one product |
| ProductContext.ProductStore.constructor | src/context/ProductContext.tsx:52-55 | no products and no categories, loading, no error |
| ProductContext.ProductStore.Load | src/context/ProductContext.tsx:58-104 | a successful load sets the transformed products (none for `null`) and their sorted categories and clears the error; a failure empties both lists and records `Failed to load products: ` and the message; either way loading ends |
| ProductContext.ProductStore.GetProductById | src/context/ProductContext.tsx:109-111 | the product found is the first with that id (no earlier product has it); none is found exactly when no product has it |
| ProductContext.ProductStore.GetProductsByCategory | src/context/ProductContext.tsx:113-115 | exactly the products of that category, in list order: for every cut of the list, the matches of the front come first |
| ProductDetail.DefaultIds | src/pages/ProductDetailPage.tsx:35 | exactly the ids of the default options, no more ids than options; `DefaultIdsAppend`: in the options' order |
| ProductDetail.DefaultIdsAppend | src/pages/ProductDetailPage.tsx:35 | the default ids of a concatenation are the default ids of its parts, concatenated, so they follow the options' order |
| ProductDetail.TypeDefault | src/pages/ProductDetailPage.tsx:32-43 | only required types get a default; a multi-select type gets all its default ids when it has any; a single-select type gets the first default option, or else its first option, exactly when it has options |
| ProductDetail.DefaultsAreTypeDefaults | src/pages/ProductDetailPage.tsx:30-45 | with distinct type ids the initial selection holds under each type id exactly that type's default, and keys only for required types |
| ProductDetail.InitialSelections | src/pages/ProductDetailPage.tsx:30-44 | the loop over the add-on types builds the initial selection, nothing for a product without add-ons |
| ProductDetail.Toggle | src/pages/ProductDetailPage.tsx:54-73 | other keys are untouched; a single choice is set; a multi-select key, if left, holds a non-empty list that has the option exactly when it did not before |
| ProductDetail.ToggleMultiIds | src/pages/ProductDetailPage.tsx:58-63 | a multi-select toggle drops a present option id and appends an absent one, keeping the others |
| ProductDetail.CurrentIds | src/pages/ProductDetailPage.tsx:58 | the ids a multi-select key holds, `[]` when missing; `ToggleMultiIds` and `ToggleTwiceRestores` state the toggle over them (see the Left out line on a single string) |
| ProductDetail.ToggleKeepsWellFormed | src/pages/ProductDetailPage.tsx:54-73 | toggling never makes the object hold a key twice |
| ProductDetail.ToggleTwiceRestores | src/pages/ProductDetailPage.tsx:57-67 | checking then unchecking a box gives back the selection, when the key was missing or held a non-empty list without the option |
| ProductDetail.ToggleTwiceFromMissing | src/pages/ProductDetailPage.tsx:62-67 | from a missing key, checking then unchecking deletes the key again |
| ProductDetail.ToggleTwiceFromList | src/pages/ProductDetailPage.tsx:60-62 | from a non-empty list, checking then unchecking restores the list |
| ProductDetail.TypesPriceOfEmpty | src/pages/ProductDetailPage.tsx:78-91 | with nothing selected no add-on adds to the price |
| ProductDetail.TypesPriceSnoc | src/pages/ProductDetailPage.tsx:78-91 | one more entry under a new key adds what the cart charges for that entry |
| ProductDetail.TypesPriceIsSelectionsPrice | src/pages/ProductDetailPage.tsx:78-91 | visiting the add-on types, as the page does, adds the same amount as visiting the entries, as the cart does, for distinct type ids and keys and no blank single choice |
| ProductDetail.DetailPrice | src/pages/ProductDetailPage.tsx:74-93 | `DetailPriceIsCartPrice`: 0 without a product, otherwise the cart's unit price for the same selection times the quantity; `AddonsPrice`: the loop computes the add-on part |
| ProductDetail.DetailPriceIsCartPrice | src/pages/ProductDetailPage.tsx:75-93 | the price the page shows is the cart's unit price for the same selection times the quantity, under the same conditions |
| ProductDetail.AddonsPrice | src/pages/ProductDetailPage.tsx:78-91 | the loop adds what the selected options of each add-on type cost, a falsy selection adding nothing |
| ProductDetail.MissingRequired | src/pages/ProductDetailPage.tsx:99-109 | no name is missing exactly when every required add-on type has a non-empty selection |
| ProductDetail.CheckRequired | src/pages/ProductDetailPage.tsx:98-109 | the loop flags every required type without a selection, and all are selected exactly when none is flagged |
| ProductDetail.DetailPage.constructor | src/pages/ProductDetailPage.tsx:19-22 | no product, no selection, quantity 1, the post-add panel hidden |
| ProductDetail.DetailPage.Load | src/pages/ProductDetailPage.tsx:24-52 | a found product is shown with its default selection; when none is found nothing changes |
| ProductDetail.DetailPage.HandleAddonSelection | src/pages/ProductDetailPage.tsx:54-73 | the selection is toggled and nothing else changes |
| ProductDetail.DetailPage.CurrentPrice | src/pages/ProductDetailPage.tsx:75-93 | 0 without a product, else the price with selected add-ons times the quantity |
| ProductDetail.DetailPage.HandleAddToCart | src/pages/ProductDetailPage.tsx:95-120 | the product is added to the cart, and the panel shown, exactly when a product is shown and every required add-on type has a selection; otherwise the cart is unchanged |
| ProductDetail.DetailPage.Decrement | src/pages/ProductDetailPage.tsx:194 | the quantity drops by one but never below 1 |
| ProductDetail.DetailPage.Increment | src/pages/ProductDetailPage.tsx:196 | the quantity rises by one |
| ProductDetail.DetailPage.ContinueShopping | src/pages/ProductDetailPage.tsx:206 | the post-add panel is hidden and nothing else changes |
| ProductDetail.DetailPage.AddDisabled | src/pages/ProductDetailPage.tsx:213 | the add button is disabled exactly without a product or for an unavailable one; `HandleAddToCart` adds only with a product |
| ProductDetail.AddonsOf | src/pages/ProductDetailPage.tsx:99 | a product without an add-on list has no add-on types |
| ProductList.QuickDefault | src/pages/ProductListPage.tsx:16-23 | only required single-select types with options get a default, a single id; on single-select types it is the default the detail page would preselect |
| ProductList.GetDefaultAddons | src/pages/ProductListPage.tsx:12-30 | the loop builds the object of quick-add defaults over the add-on types, nothing for a product without add-ons |
| ProductList.QuickDefaultsOnlyRequiredSingle | src/pages/ProductListPage.tsx:16 | every key of the quick-add defaults is the id of a required single-select type with options |
| ProductList.QuickDefaultsAgreeWithDetail | src/pages/ProductListPage.tsx:12-30 | with distinct type ids the quick-add defaults agree with the detail page's defaults on single-select types and omit multi-select ones |
| ProductList.Displayed | src/pages/ProductListPage.tsx:45 | `all` shows every product; a category shows exactly the products of that category |
| ProductList.QuickSelection | src/pages/ProductListPage.tsx:47-57 | the quick-add defaults for a product with add-ons, `{}` otherwise; `QuickDefaultsOnlyRequiredSingle` and `QuickDefaultsAgreeWithDetail` state its keys and values, and `GetDefaultAddons` that the loop builds it |
| ProductList.HandleAddToCart | src/pages/ProductListPage.tsx:47-58 | one unit is added to the cart, with the quick-add defaults when the product has add-ons and with no selection otherwise |
| ProductList.QuickAddPlainProduct | src/pages/ProductListPage.tsx:54-57 | a product without add-ons goes in under its own id: its line gains one unit, or a new line at its base price is appended |
| ProductList.ShortDescription | src/pages/ProductListPage.tsx:103-105 | a missing or empty description gives the placeholder; one longer than 60 characters is cut to its first 60 and `...`; a shorter one is shown whole |
| ProductList.ShowsAddonsHint | src/pages/ProductListPage.tsx:112 | the `+addons` hint shows exactly when some option of some add-on type costs extra |
| ProductList.HasPricedOption | src/pages/ProductListPage.tsx:112 | true exactly when some option of some type costs extra |
| ProductList.CardAction | src/pages/ProductListPage.tsx:116-126 | the card adds directly exactly when the product has no add-ons, and its button is disabled exactly when the product is unavailable |
| ProductPage.PageDefault | src/pages/ProductPage.tsx:83-89 | a type gets an entry exactly when it is required or has a default option; a multi-select type holds its default in a list, or `[]`; a single-select type holds its default, else its first option, else the empty string |
| ProductPage.InitialAddons | src/pages/ProductPage.tsx:81-91 | the key of each required type or type with a default holds that type's `PageDefault` (`Types.PutEachLookup`, for distinct type ids) and nothing else is keyed (`Types.PutEachKeys`); `InitialSelections`: the loop builds it |
| ProductPage.InitialSelections | src/pages/ProductPage.tsx:81-91 | the loop over the add-on types builds the initial selection, nothing for a product without add-ons |
| ProductPage.PageToggle | src/pages/ProductPage.tsx:123-138 | other keys are untouched; a single choice is set; a multi-select key always stays, holding a list that has the option exactly when it did not before |
| ProductPage.PageToggleAgreesWithDetail | src/pages/ProductPage.tsx:123-138 | the page toggles as the detail page does, except that an emptied list is kept as `[]` where the detail page deletes the key |
| ProductPage.FirstMissing | src/pages/ProductPage.tsx:143-150 | nothing is missing exactly when every required type has a non-empty selection; a name reported is that of a required type without one |
| ProductPage.FirstMissingRequired | src/pages/ProductPage.tsx:143-150 | the loop stops at, and reports, the first required type without a selection |
| ProductPage.FirstMissingSnoc | src/pages/ProductPage.tsx:143-150 | a type added at the end is reported only when no earlier one is missing |
| ProductPage.FirstMissingIsFirstOfMissing | src/pages/ProductPage.tsx:143-150 | this page reports nothing exactly when the detail page lists nothing missing, and otherwise the first name the detail page lists |
| ProductPage.RequiredListWithoutDefaultBlocks | src/pages/ProductPage.tsx:83-86 | a required multi-select type without a default starts as `[]`, so adding to the cart is refused until something is picked |
| ProductPage.QuantityFromInput | src/pages/ProductPage.tsx:231 | the quantity is at least 1; a typed number of 1 or more is taken as it is; text that is not a number gives 1 |
| ProductPage.QuantityOfTypedNumber | src/pages/ProductPage.tsx:231 | typing the decimal spelling of a positive number sets the quantity to that number |
| ProductPage.Page.constructor | src/pages/ProductPage.tsx:70-73 | the page searches the built-in list and starts with no product, quantity 1, no selection, total 0 |
| ProductPage.Page.Load | src/pages/ProductPage.tsx:75-100 | a built-in product with that id is shown with its initial selection; an unknown id changes nothing |
| ProductPage.Page.RecomputeTotal | src/pages/ProductPage.tsx:102-121 | with a product the total becomes the detail page's price for the same selection and quantity; without one it keeps its value |
| ProductPage.Page.HandleAddonSelection | src/pages/ProductPage.tsx:123-138 | the selection is toggled and nothing else changes |
| ProductPage.Page.HandleAddToCart | src/pages/ProductPage.tsx:140-158 | without a product nothing is reported; with one, the first required add-on without a selection, or nothing when the success toast is shown |
| ProductPage.Page.SetQuantity | src/pages/ProductPage.tsx:231 | the quantity is read from the input and is at least 1 |
| OrderRows.NumberOf | src/context/OrderContext.tsx:39-41 | a numeric column reads as its value, and `null` as 0 |
| OrderRows.NumberOr | src/context/OrderContext.tsx:42 | the first column when it is set and not 0, the second otherwise |
| OrderRows.ItemTotal | src/context/OrderContext.tsx:29 | the stored line total when it is set and not 0, else quantity times unit price |
| OrderRows.ItemOf | src/context/OrderContext.tsx:23-32 | an order line keeps its row's id, product, name, quantity, unit price and image, takes the line total by `ItemTotal`, and an empty selection for `null` |
| OrderRows.ItemsOf | src/context/OrderContext.tsx:23 | one line per item row, in order |
| OrderRows.OrderOf | src/context/OrderContext.tsx:21-52 | an order keeps its row's id, user, status, customer, payment status and timestamps; its amounts read `null` as 0; its total is `total`, or `total_amount` when that is unset or 0 |
| OrderRows.Transform | src/api/orderProxy.ts:79-84 | one order per row in row order, none for `null` |
| OrderRows.PayloadOf | src/context/OrderContext.tsx:282-295 | the payload carries the user id, the status and payment status or `pending` for falsy ones, the draft's total as `total_amount`, and the other amounts as given |
| OrderRows.ItemsSent | src/context/OrderContext.tsx:304-317 | items are inserted exactly when the order insert returned a row, each caller item paired with the new order's id |
| OrderRows.CreateChain | src/context/OrderContext.tsx:298-345 | the chain fails with the first failure's message, `Failed to create order` for a missing row, and succeeds exactly when all three calls succeed and the final read returns a row, giving that row transformed |
| OrderRows.DraftReadsBack | src/api/orderProxy.ts:141-229 | an order read back from what a draft stored carries the draft's status or `pending`, its amounts and its total, the total moving through `total_amount` and back |
| Orders.ReplaceId | src/context/OrderContext.tsx:348-350 | the orders with the id are replaced, every other order stays in place |
| Orders.DropId | src/context/OrderContext.tsx:359 | exactly the orders with another id are kept, no more than there were; `DropIdAppend`: in their order |
| Orders.DropIdAppend | src/context/OrderContext.tsx:359 | filtering a concatenation is concatenating the filtered parts, so the kept orders keep their order |
| Orders.DropAbsent | src/context/OrderContext.tsx:359 | dropping an id no order has changes nothing |
| Orders.ReplaceAbsent | src/context/OrderContext.tsx:348-350 | replacing an id no order has changes nothing |
| Orders.PrependedThenSettled | src/context/OrderContext.tsx:277-359 | an order prepended under a fresh id and then replaced sits alone at the front of the untouched list; prepended and then dropped, it leaves the list as it was |
| Orders.OptimisticItems | src/context/OrderContext.tsx:254-263 | one placeholder line per caller item, read as the transform reads a row, under its temporary id |
| Orders.TempId | src/context/OrderContext.tsx:250 | the optimistic order's id starts with `temp-` |
| Orders.Optimistic | src/context/OrderContext.tsx:251-274 | the optimistic order is `pending`, belongs to the user, has the draft's amounts with 0 for missing ones, the placeholder lines, and the draft's customer name, else the user's first name, else `Customer` |
| Orders.ContextPayload | src/context/OrderContext.tsx:282-295 | the shared payload, with the customer name falling back to the user's first name |
| Orders.WithStatus | src/context/OrderContext.tsx:374-378 | the orders with the id get the new status and update time; every other order stays |
| Orders.OrderStore.constructor | src/context/OrderContext.tsx:55-58 | no orders, no current order, not loading, no error |
| Orders.OrderStore.ApplyChange | src/context/OrderContext.tsx:87-111 | an insert puts the new order first; an update replaces the order by id, and the current order when it is that one; a delete drops the order by id |
| Orders.OrderStore.GetUserOrders | src/context/OrderContext.tsx:126-183 | without a user id nothing happens and nothing is returned; otherwise a success lists and returns the transformed rows and a failure keeps the list and records `Failed to load orders: ` and the message |
| Orders.OrderStore.GetOrderById | src/context/OrderContext.tsx:186-237 | a found row becomes the current order and is returned; no row returns nothing; a failure records `Failed to load order: ` and the message; the list is untouched |
| Orders.OrderStore.CreateOrder | src/context/OrderContext.tsx:240-366 | without a user id only `User not authenticated` is recorded; otherwise the payload is sent, the items follow only after an inserted row, and the optimistic order is replaced by the created one or, on any failure, removed with `Failed to create order: ` and the message |
| Orders.OrderStore.UpdateOrderStatus | src/context/OrderContext.tsx:369-403 | the status is set at once on the listed and current order and kept whatever the backend answers; the call succeeds exactly when the backend does, and a failure records `Failed to update order status: ` and the message and asks for a refetch |
| Orders.CreateOrderSettles | src/context/OrderContext.tsx:348-359 | a created order takes the optimistic one's place at the front of the untouched list; a failed one leaves the list as before the call |
| Orders.StatusUpdateIsLocal | src/context/OrderContext.tsx:374-378 | a status update changes only the status and update time of the orders with that id, and the new status names the enum value |
| OrderProxy.ReplyOf | src/api/orderProxy.ts:222-229 | exactly one of data and error is set: the value on success, the message on failure |
| OrderProxy.GetUserOrdersProxy | src/api/orderProxy.ts:38-85 | exactly one of data and error: the transformed rows (none for `null`) on success, the message on failure |
| OrderProxy.GetOrderByIdProxy | src/api/orderProxy.ts:88-138 | exactly one of data and error: the transformed row, `Order not found` for no row, the message on failure |
| OrderProxy.CreateOrderProxy | src/api/orderProxy.ts:141-230 | the shared payload is sent, the items only after an inserted row; data is set exactly when all three calls succeed and the final read returns a row, and is that row transformed; a missing inserted row gives `Failed to create order` |
| Checkout.CustomerName | src/pages/CheckoutPage.tsx:40 | `CustomerNameOfTidyNames`: the first name alone without a last name, `first last` with one |
| Checkout.CustomerNameOfTidyNames | src/pages/CheckoutPage.tsx:40 | for names without surrounding white space, the customer name is the first name alone without a last name, and `first last` with one |
| Checkout.OrderItemOf | src/pages/CheckoutPage.tsx:44-52 | an order item carries its cart line's product, quantity, unit price, line total and selection |
| Checkout.OrderItems | src/pages/CheckoutPage.tsx:44-52 | one order item per cart line, in cart order |
| Checkout.Draft | src/pages/CheckoutPage.tsx:34-41 | the order data is `pending`, with the cart's subtotal, tax, delivery fee and total and the customer name |
| Checkout.LineReadsBack | src/pages/CheckoutPage.tsx:44-52 | a priced cart line sent as an order item and read back by the transform is the same line under the stored item's id |
| Checkout.PlacedOrderIsTheCart | src/pages/CheckoutPage.tsx:34-59 | when the backend stores what checkout sends, the placed order is the cart: `pending`, the cart's subtotal, tax, fee and total, and its lines in order under their stored ids |
| Checkout.PlaceOrderDisabled | src/pages/CheckoutPage.tsx:159 | the button is disabled exactly while placing an order or with an empty cart |
| Checkout.CheckoutPage.constructor | src/pages/CheckoutPage.tsx:16-17 | not loading, no error, nowhere navigated |
| Checkout.CheckoutPage.HandlePlaceOrder | src/pages/CheckoutPage.tsx:19-83 | without a user id or with an empty cart only the matching error is set and the proxy is not called; otherwise the proxy is called with the draft and items, and success clears the cart and goes to the order's confirmation page while failure keeps the cart and reports `Order placement failed: ` and the message |
| ForgotPassword.RequestFor | src/pages/ForgotPasswordPage.tsx:31-33 | `RequestLeadsBack`: the request keeps the email and links to the page's origin followed by `/reset-password` |
| ForgotPassword.RequestLeadsBack | src/pages/ForgotPasswordPage.tsx:31-33 | the request keeps the email and its link is the page's origin followed by `/reset-password` |
| ForgotPassword.EmailError | src/pages/ForgotPasswordPage.tsx:23-26 | a blank email is refused with `Email is required`, and nothing else is |
| ForgotPassword.ForgotPasswordPage.constructor | src/pages/ForgotPasswordPage.tsx:14-16 | not loading, no error, no success |
| ForgotPassword.ForgotPasswordPage.HandleSubmit | src/pages/ForgotPasswordPage.tsx:18-44 | a blank email is refused without a request; otherwise the reset email is requested for the page's origin, and success is shown exactly when the request succeeds, a failure showing its message or the fallback |
| Login.RedirectTarget | src/pages/LoginPage.tsx:27-28 | the page the user came from, else `/home` |
| Login.LoginError | src/pages/LoginPage.tsx:34-43 | the form passes exactly with a non-blank email and a non-empty password; the email is checked first |
| Login.LoginPage.constructor | src/pages/LoginPage.tsx:25 | no form error, nowhere navigated |
| Login.LoginPage.HandleSubmit | src/pages/LoginPage.tsx:30-56 | sign-in is called exactly when the form passes, and a successful sign-in goes to the redirect target |
| Register.RegisterError | src/pages/RegisterPage.tsx:29-42 | the form passes exactly with a non-blank email and first name, a password of at least 8 characters, and a matching confirmation; missing fields are reported first, then a mismatch, then a matching password shorter than 8 characters, each with its own message |
| Register.MismatchBeforeLength | src/pages/RegisterPage.tsx:34-42 | a short password that also differs from its confirmation is reported as a mismatch |
| Register.UserDataOf | src/pages/RegisterPage.tsx:44-48 | the username is left out exactly when it is empty |
| Register.RegisterPage.constructor | src/pages/RegisterPage.tsx:22 | no form error, nowhere navigated |
| Register.RegisterPage.HandleSubmit | src/pages/RegisterPage.tsx:24-57 | sign-up is called, with the email, password and profile data, exactly when the form passes, and a successful sign-up goes to `/login` |
| ResetPassword.ResetError | src/pages/ResetPasswordPage.tsx:39-52 | the form passes exactly with a password of at least 8 characters equal to its confirmation; an empty password is reported first, then a short one, then a long-enough one that differs from its confirmation, each with its own message |
| ResetPassword.LengthBeforeMismatch | src/pages/ResetPasswordPage.tsx:44-52 | a short password that also differs from its confirmation is reported as short |
| ResetPassword.ResetPasswordPage.constructor | src/pages/ResetPasswordPage.tsx:16-19 | not loading, no error, no success, the link taken as valid |
| ResetPassword.ResetPasswordPage.CheckSession | src/pages/ResetPasswordPage.tsx:22-33 | without a session the link is marked invalid with the expired-link message; with one nothing changes |
| ResetPassword.ResetPasswordPage.HandleSubmit | src/pages/ResetPasswordPage.tsx:35-77 | the password update is requested exactly when the form passes; success is shown exactly when it succeeds, and a failure shows its message or the fallback |
| Profile.Initial | src/pages/ProfilePage.tsx:75-76 | a missing or empty name gives nothing, otherwise its first character upper-cased |
| Profile.GetInitials | src/pages/ProfilePage.tsx:72-79 | `?` without a user or without initials, otherwise the first-name and last-name initials; never empty, at most two characters |
| Profile.InitialsOfFullName | src/pages/ProfilePage.tsx:72-79 | a user whose two names start with ASCII letters gets two capital letters |
| Profile.UpdateOf | src/pages/ProfilePage.tsx:46-54 | the update is keyed by the user's Telegram id, carries the first name, and sends an empty last name or username as `null` |
| Profile.FirstNameError | src/pages/ProfilePage.tsx:37-40 | a blank first name is refused with `First name is required`, and nothing else is |
| Profile.ProfilePage.constructor | src/pages/ProfilePage.tsx:16-21 | the form starts from the user's names, empty where missing, not loading, no error, no success |
| Profile.ProfilePage.SyncFromUser | src/pages/ProfilePage.tsx:24-30 | a present user refills the three fields; no user leaves them |
| Profile.ProfilePage.HandleSubmit | src/pages/ProfilePage.tsx:32-65 | a blank first name is refused without an update; otherwise the update is sent, and success is shown exactly when it succeeds, a failure showing its message or the fallback |
| AdminOrders.FilterByStatus | src/pages/AdminOrdersPage.tsx:127-133 | `all` keeps every order; any other filter keeps exactly the orders with that status; `FilterByStatusAppend`: in their order |
| AdminOrders.FilterByStatusAppend | src/pages/AdminOrdersPage.tsx:127-133 | filtering a concatenation is concatenating the filtered parts, so the orders stay in order |
| AdminOrders.WithStatusName | src/pages/AdminOrdersPage.tsx:131 | exactly the orders with that status are kept, no more of them than there were; `WithStatusNameAppend`: in their order |
| AdminOrders.WithStatusNameAppend | src/pages/AdminOrdersPage.tsx:131 | the status filter distributes over concatenation |
| AdminOrders.StatusButtons | src/pages/AdminOrdersPage.tsx:287-341 | an order offers a button for exactly the statuses other than its own |
| AdminOrders.Without | src/pages/AdminOrdersPage.tsx:287-341 | exactly the statuses of the list whose name differs are kept |
| AdminOrders.ButtonCount | src/pages/AdminOrdersPage.tsx:287-341 | an order in one of the six statuses gets five buttons; an order holding any other string gets all six |
| AdminOrders.WithoutNone | src/pages/AdminOrdersPage.tsx:287-341 | leaving out a name no status has keeps the list |
| AdminOrders.WithoutOne | src/pages/AdminOrdersPage.tsx:287-341 | leaving out a name exactly one status has removes one button |
| AdminOrders.BadgeLabel | src/pages/AdminOrdersPage.tsx:188 | the label has the status's length, its first character upper-cased and the rest unchanged |
| AdminOrders.ItemCountIsTotalQuantity | src/pages/AdminOrdersPage.tsx:259 | an order's item count is the cart's total quantity of its lines |
| AdminOrders.ItemCount | src/pages/AdminOrdersPage.tsx:259 | `ItemCountIsTotalQuantity`: the `reduce` over quantities equals the cart's total quantity |
| AdminOrders.TotalQuantityCons | src/pages/AdminOrdersPage.tsx:259 | a line in front adds its quantity to the total quantity |
| AdminOrders.UpdatedOrderListedUnderNewStatus | src/pages/AdminOrdersPage.tsx:142-152 | after a status update the order is listed under the filter of its new status |
| AdminOrders.AdminOrdersPage.constructor | src/pages/AdminOrdersPage.tsx:14-17 | no orders, the `all` filter, loading, the shown list matching the filter |
| AdminOrders.AdminOrdersPage.FetchAllOrders | src/pages/AdminOrdersPage.tsx:21-100 | a successful fetch lists the transformed rows and shows them under the filter chosen now; a failure keeps the list; loading ends (the corrected form: see Findings) |
| AdminOrders.AdminOrdersPage.HandleStatusFilterChange | src/pages/AdminOrdersPage.tsx:136-139 | the filter is set and the shown list is the full list under it |
| AdminOrders.AdminOrdersPage.HandleStatusUpdate | src/pages/AdminOrdersPage.tsx:142-157 | the provider always sets the status optimistically; on success the page's full list gets the new status and the filter is applied again; on failure the page's lists stay |
| AdminOrders.StaleFilterShowsExcludedOrder | src/pages/AdminOrdersPage.tsx:20-124 | with `pending` chosen, a refetch returning one delivered order shows it although the filter excludes it |
| AdminOrders.FetchedViewAsWritten | src/pages/AdminOrdersPage.tsx:20-124 | the refetch as written, which filters by the mount-time `all`; `StaleFilterShowsExcludedOrder`: it shows an order the chosen filter excludes |
| AdminPage.Applied | src/pages/AdminPage.tsx:57-62 | one form change sets exactly the field it names, to the text, the number or the checked flag, and leaves the id, category and add-ons |
| AdminPage.NewProductTemplate | src/pages/AdminPage.tsx:52-55 | a new product starts without id or name, at price 0, available, without add-ons, in the first category or none |
| AdminPage.ReplaceProduct | src/pages/AdminPage.tsx:73 | the products with the saved product's id are replaced by it, every other product stays in place |
| AdminPage.NewProductId | src/pages/AdminPage.tsx:76 | a new product's id starts with `prod-` |
| AdminPage.SetStatus | src/pages/AdminPage.tsx:87 | only the status of the orders with the id changes |
| AdminPage.SavedProductIsFound | src/pages/AdminPage.tsx:72-74 | after saving a listed product, looking up its id returns the saved product |
| AdminPage.FoundIsFirst | src/context/ProductContext.tsx:109-111 | when every product under an id is the same one, the lookup by that id returns it |
| AdminPage.AddedProductIsFound | src/pages/AdminPage.tsx:75-79 | a product added under a fresh id is found by that id |
| AdminPage.AdminPanel.constructor | src/pages/AdminPage.tsx:35-41 | the panel starts from its initial products, orders and categories, nothing being edited, the modal closed |
| AdminPage.AdminPanel.HandleEditProduct | src/pages/AdminPage.tsx:47-50 | the product is being edited and the modal is open |
| AdminPage.AdminPanel.HandleAddNewProduct | src/pages/AdminPage.tsx:52-55 | the blank template is being edited and the modal is open |
| AdminPage.AdminPanel.HandleProductFormChange | src/pages/AdminPage.tsx:57-62 | the product being edited takes the change; without one nothing happens; products, orders, categories and the modal flag stay |
| AdminPage.AdminPanel.HandleProductCategoryChange | src/pages/AdminPage.tsx:64-67 | the product being edited takes the category; without one nothing happens; products, orders, categories and the modal flag stay |
| AdminPage.AdminPanel.HandleSaveProduct | src/pages/AdminPage.tsx:69-82 | a product with an id replaces the listed ones with that id; one without gets a `prod-` id and is appended; the modal closes; without a product being edited nothing happens |
| AdminPage.AdminPanel.HandleUpdateOrderStatus | src/pages/AdminPage.tsx:85-89 | the orders with the id get the new status; products, the product being edited, categories and the modal flag stay |

## Left out

- Supabase and network I/O: every `supabase.from(...)`, `supabase.auth.*` and `fetch` call, and the realtime channels of the orders provider and the admin orders page. Each call's answer is an `Outcome` parameter; the transport is not modelled.
- HMAC-SHA-256 and UTF-8 encoding are fields of `TelegramValidate.Crypto`, left uninterpreted, because they are foreign calls into node's `crypto`.
- Percent-decoding inside `URLSearchParams` is not modelled: `FormQuery` splits on `&` and `=` and turns `+` into a space, and keys and values are otherwise taken as decoded.
- `localeCompare` is modelled as character order (`Common.StrLt`), not a locale collation.
- Strings are sequences of Unicode characters, while JavaScript's `.length`, `substring`, `charAt` and default `sort` count and compare UTF-16 code units. For text outside the Basic Multilingual Plane this moves the 60-character cut of `ProductList.ShortDescription`, the 8-character minimum of `Register.RegisterError` and `ResetPassword.ResetError`, the first character taken by `Profile.Initial`, and the order `Common.StrLt` gives.
- `Object.entries` and `for … in` visit integer-like keys (`"0"`, `"12"`) first, in ascending numeric order, and only then the other keys in insertion order. The association lists (`Types.Selections`) keep insertion order for every key, so they match the code only when no key is integer-like.
- Floating point: tax is an exact `real` seven hundredths of the subtotal, prices are integer cents, and `toFixed`, `Intl` formatting (`formatPrice`, `formatDate`) and `Math.round` are not modelled.
- `NaN` from `parseInt` is `None` where the source branches on it (the `auth_date` check); `parseFloat` on the admin product editor's price field is modelled as an integer price, so a `NaN` price is not represented.
- `Math.random`, `Date.now`, `generateId` and the temporary `temp-` order ids are parameters; `debounce` and the three-second redirect `setTimeout` of the reset-password page are not modelled, because they are timers.
- `localStorage` persistence of the cart, its JSON parsing and `deepClone` are left out, because they are platform serialisation.
- Rendering, toasts, `navigate` calls and `showTelegramAlert` are not modelled, except where a page's state or its choice of message is what the code decides.
- The admin dashboard page is left out: its numbers come from backend count queries and what remains is float display.
- The home, not-found, access-denied, payment-completed, order-history and order-confirmation pages, the header, footer, layouts, admin mobile navigation, category filter and cart button are pure rendering and are not modelled.
- `src/pages/Home.tsx`, `src/pages/ProductDetail.tsx`, `src/pages/Checkout.tsx`, `src/pages/Cart.tsx`, `src/components/product/ProductCard.tsx` and `src/components/cart/CartItem.tsx` use field names or modules that the type declarations do not have, so they are not part of this model.
- The `useTelegram` and `useSupabase` hooks are glue around calls already modelled, and the Stripe wrapper is a payment-gateway call; neither is part of this model.
- `src/main.tsx`, `src/App.tsx`, `vite.config.ts` and `scripts/setup-database.js` hold no behaviour and are not part of this model.
- Races between concurrent validation requests (check-then-insert on `users`) and the timing of auth-state callbacks are concurrency and are not modelled; every operation runs to completion alone.
- The Telegram user's photo is not carried through the model, because no modelled decision reads it.
- The navigation state message that the register page passes to the login page is dropped, because nothing modelled reads it.
- TelegramValidate.Outdated: an `auth_date` that is not a number yields `NaN`, and `NaN` passes the freshness check, as in the code.
- TelegramValidate.UserJson: a user id is a number or absent, so two cases of the handler are not represented. A truthy non-numeric id such as `"abc"` passes the `!userData.id` test (api/auth/telegram/validate.ts:67). A request without a body makes the destructuring at line 19 throw, which answers 500 `Internal server error`. Neither occurs for data Telegram has signed.
- TelegramClient.IsInitDataRecent: the client helper uses a strict `<`, while the endpoint rejects only when the difference is strictly greater than a day; `TelegramClient.ClientAndServerFreshness` states the one second where they differ.
- TelegramClient.GetTelegramWebApp: the result is absent also when `window.Telegram.WebApp` is `null`, as in the code.
- AuthContext: the "Failed to validate Telegram data" branch of the Telegram sign-in cannot be reached, because the validation helper either returns a user or throws; the model keeps the branch and does not prove it dead.
- Login: the page's `catch` block cannot be reached, because the sign-in call reports failure by its result.
- AuthContext.AuthProvider.InitAuth: the start-up `catch` (src/context/AuthContext.tsx:137-139), which sets `error` to the thrown exception's message, is not modelled. The session is an input that cannot fail, so a `getSession` call that throws has no counterpart. A failed user lookup is an `Err` answer, which takes the code's non-throwing `userError` branch.
- AuthContext: the provider's `isMerchant` flag (src/context/AuthContext.tsx:63) is not modelled, because no modelled page or guard reads it.
- Nav: `isAuthenticated` is an input of the navigation bar, as the code receives it from the auth provider.
- Orders.OrderStore.UpdateOrderStatus: on failure the error message is set and then cleared by the refetch, which starts with `setError(null)`; the model states both steps.
- Orders.OrderStore.GetUserOrders: a missing user or a user id of `0` returns no orders; the `String(id).trim() === ''` guard cannot hold for a numeric id, so it adds nothing.
- Orders.OrderStore.CreateOrder: the final `select` after the insert names `total` but not `total_amount`, so the fallback to `total_amount` never applies to that row; the model takes the row read back as an input and does not restrict its columns.
- OrderRows: `transformSupabaseOrder(null)` throws; the model returns `Err` with the message of that exception (`OrderRows.NullRowMessage`).
- Cart.CartStore.UpdateQuantity: a quantity of zero or less removes the item, as in the code.
- ProductPage: a category that ends up empty after filtering is kept as an empty list, and add-to-cart shows a toast without calling the cart, as in the code.
- ProductList: the quick-add branch for products with add-ons cannot be reached, because such a card links to the detail page instead; `ProductList.QuickAddPlainProduct` covers the reachable branch.
- ProductDetail.CurrentIds: a multi-select key that holds a single string reads as no ids, so `ProductDetail.Toggle` and `ProductPage.PageToggle` then start a fresh list. The code only casts the value (`as string[]`), so there `includes` tests for a substring, a spread splits the string into characters, and `filter` throws. The model does not reproduce that misbehaviour.
- Types: where the code tests `Array.isArray` (prices, cart-item ids, the required-add-on checks, the cart page summary), a single string is one option id (`Types.Choice.One`), as in the code.
- AdminOrders: a status outside the six named ones produces all six status buttons.
- Common.UpperChar: only ASCII letters are upper-cased; `toUpperCase` on other letters is not modelled.

## Findings

| source | as written | input that shows it | evidently intended | confidence | as-written member | corrected member |
|---|---|---|---|---|---|---|
| src/pages/AdminOrdersPage.tsx:20-133 | `fetchAllOrders` is captured by an effect with an empty dependency list, so every realtime refetch filters by the status chosen at mount time (`all`) | the admin picks the `pending` filter, then a realtime change triggers a refetch that returns one `delivered` order: that order is listed under the `pending` filter | a refetch applies the status filter currently selected | not executed | AdminOrders.StaleFilterShowsExcludedOrder | AdminOrders.AdminOrdersPage.FetchAllOrders |
