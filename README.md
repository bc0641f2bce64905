# Next Amazona, modelled in Dafny

Next Amazona is an e-commerce site built with Next.js, React and MongoDB.
Shoppers browse and search a product catalogue, fill a cart, give a
shipping address, see the price breakdown and place an order. Admins see a
sales dashboard and manage products and users. Accounts are created and
edited through API routes that store users through Mongoose and issue JSON
Web Tokens.

This project models the core of that site and proves properties of the model:

- **Search page**: the query-string parsing of `getServerSideProps`, and the Mongo filter, sort and paging it builds. Also the page's `filterSearch`, which mutates the router query in place and pushes it, and its add-to-cart handler.
- **Home page**: the top-rated and featured product lists.
- **Place-order page**: the price breakdown, with its rounding to cents.
- **Global store**: after the theme actions, it keeps nothing but the dark-mode flag.
- **Admin pages**: the three local reducers, the products and users pages' effect re-run loop, and their create and delete handlers.
- **Auth**: the `isAuth` middleware and `signToken`.
- **User API routes**: the `register` and `profile` routes, over the user schema.
- **Register and shipping forms**: their field rules, their submit handlers and their mount effects.

The model is written in the source's own form:

- Reducers, filters and price arithmetic are functions.
- The router, the browser, the admin pages, the user collection and the request exchange are classes whose methods update their fields.
- Each method is specified against the functions, which carry the lemmas.

The browser is `Client.Browser`. It records:
- the actions dispatched to the global store,
- the cookies set,
- the paths pushed,
- the snackbar or alert messages.

The database, the network, bcrypt and `jwt.sign`/`jwt.verify` are parameters:
- catalogue and user collections are given as values;
- responses are given as `Result` values;
- hash, sign and verify are given as functions.

Several behaviours of the source are proved as they are, not corrected:

- The global store in `utils/Store.tsx` has no cart and no user. So `CART_ADD_ITEM`, `SAVE_SHIPPING_ADDRESS` and `USER_LOGIN` change nothing (`Store.OtherActionsAreIgnored`).
- For the same reason `state.userInfo` is `undefined` in every state (`Store.UserInfoIsUndefined`). So the admin pages always push `/login`, and the register page never redirects: the `None` case of their `userInfo` parameter is the only one reachable.
- Reading `state.cart` gives `undefined`, and reading anything from it throws. The search and home pages' add-to-cart handler and the rendering of the place-order and shipping pages fail that way (see "## Findings"). Their members here take the cart the pages read as a parameter, that is, they model a store that holds one.
- The search page displays the parameter `query` but writes and filters on `searchQuery`.
- `filterSearch` computes and discards its `min`/`max` values.
- `isAuth` never checks the `Bearer ` prefix.
- The admin products and users pages reset the delete flag with an undefined error before their first fetch.
- The shipping page's map button saves an address without validating it.

## Model

| member | source | states |
|---|---|---|
| JsNumber.Number | pages/search.tsx:257-258 | `Number(s)` of an absent parameter is NaN, of `""` is 0, of a digit string its decimal value |
| JsNumber.NumberOr | pages/search.tsx:257-258 | `Number(v) \|\| d` is the parsed number when it is truthy (non-zero, non-NaN) and the default otherwise; with a non-zero default it is never 0 |
| JsNumber.TextOr | pages/register.tsx:50 | `v \|\| d` on strings: the value when it is a non-empty string, the default otherwise |
| JsNumber.NatToString | pages/search.tsx:77 | the template string of a natural number is a non-empty digit string |
| JsNumber.DigitsValueOfNatToString | pages/search.tsx:77 | reading back the digits of a written number gives the number |
| JsNumber.NumberOfIntToString | pages/search.tsx:77 | `Number(\`${n}\`) == n` for every integer, so a page number written by `filterSearch` is read back unchanged |
| JsNumber.Split | pages/search.tsx:289-290 | `split(sep)` gives at least one part and no part contains the separator |
| JsNumber.JoinSplit | pages/search.tsx:289-290 | joining the parts of a split with the separator gives back the string |
| JsNumber.SplitPair | pages/search.tsx:289-290 | `(a + "-" + b).split("-")` is `[a, b]` when neither half contains `-` |
| JsNumber.SplitNoSep | pages/search.tsx:289-290 | a string without the separator splits into itself alone |
| Search.PriceWithoutDashHasNoRange | pages/search.tsx:289-290 | a price value without a `-` has no second bound, so it gives no range |
| Search.BuildFilter | pages/search.tsx:259-293 | the filter fails to build exactly when an active price or rating value has a bound that reads as NaN |
| Search.GetServerSideProps | pages/search.tsx:255-347 | the page errors exactly when the filter fails or the skip is negative. Otherwise it shows the requested page number, and the categories and brands of the whole catalogue; which products it holds is stated by `Search.SearchPageContents` |
| ProductQuery.Insert | pages/search.tsx:320 | inserting into a sorted list keeps it sorted and adds exactly that product to the multiset |
| ProductQuery.Sort | pages/search.tsx:320 | `.sort(order)` yields a list sorted by the order and a permutation of the input |
| ProductQuery.Where | pages/search.tsx:310-317 | `find(filter)` keeps exactly the products the filter admits, each as many times as the collection holds it, and adds none |
| ProductQuery.Window | pages/search.tsx:321-322 | `.skip(k).limit(n)` is the slice starting at k of at most n products, empty past the end |
| ProductQuery.WindowOfSort | pages/search.tsx:320-323 | a page of the sorted result is sorted, drawn from the catalogue, and no longer than the page size |
| Search.PagingDefaults | pages/search.tsx:257-258 | an absent, empty, zero or non-numeric `pageSize`/`page` falls back to 3/1 |
| Search.PagingReadsDigits | pages/search.tsx:257-258 | a positive decimal `pageSize`/`page` is used as given |
| Search.PriceRangeOfDigits | pages/search.tsx:285-293 | a price value `a-b` of decimal numbers gives the bounds a and b |
| Search.PriceRangeOfDigitStrings | pages/search.tsx:289-290 | a price value made of two digit strings gives their decimal values as bounds |
| Search.FilterFieldsFollowParameters | pages/search.tsx:259-293 | each filter field is present exactly when its parameter is neither empty nor "all", and then holds that parameter's value |
| Search.InactiveParametersAdmitAll | pages/search.tsx:266-293 | with every parameter empty or "all" the filter admits every product |
| Search.RatingFilterIsLowerBound | pages/search.tsx:277-284 | rating `r` admits exactly the products rated r or more |
| Search.PriceFilterIsClosedRange | pages/search.tsx:285-293 | price `a-b` admits exactly the products priced from a to b, both ends included |
| Search.NonNumericRatingFails | pages/search.tsx:277-284 | a rating that is not a number cannot be cast, and the whole search fails |
| Search.SortOrder | pages/search.tsx:295-306 | each of the five sort names picks its field and direction; anything else sorts by `_id` descending |
| Search.Matching | pages/search.tsx:325-331 | the counted products are exactly the catalogue products the filter admits, each with its multiplicity in the catalogue |
| Search.SearchPageContents | pages/search.tsx:255-347 | the page is exactly the sorted matches with the first pageSize·(page−1) dropped and cut to pageSize (`.sort().skip().limit()`): only catalogue products the filter admits, sorted by the chosen order, at most a page of them. The count is the number of matches, and with a positive page size the page count covers every match with no empty trailing page |
| Search.CeilDivBounds | pages/search.tsx:342 | the page count covers every product, has no empty trailing page, and is 0 for no products |
| Search.CeilDivOfNegativeSize | pages/search.tsx:342 | with a negative page size the page count is still the ceiling of the quotient: the least integer at or above it |
| Search.EveryMatchIsOnItsPage | pages/search.tsx:320-322 | the i-th ordered product appears on page `i / size + 1`, at position `i % size`, and that page is within the page count |
| Search.NegativeSkipFails | pages/search.tsx:321 | `page=-1` makes the skip negative, and the search fails |
| Search.ThirdPriceOptionAdmitsNothing | pages/search.tsx:37-40 | the option labelled "$201 to $1000" has the value `201-100`, whose range admits no product |
| Search.PriceOptionsMatchTheirLabels | pages/search.tsx:28-41 | with the third value `201-1000`, each option's bounds are the prices its label names |
| Search.PageText | pages/search.tsx:77 | the page number is written exactly when it is present and non-zero |
| Search.FilterSearchMergesTruthyFields | pages/search.tsx:74-92 | `filterSearch` leaves the query as the old query overridden by the data's truthy fields |
| Search.MinMaxAreIgnored | pages/search.tsx:84-87 | `min` and `max` in the data change nothing; the query's own `min`/`max` survive untouched |
| Search.ApplyFilterData | pages/search.tsx:74-92 | every parameter other than the seven `filterSearch` can write keeps its presence and its value |
| Search.SearchTextIsNeverDisplayed | pages/search.tsx:64-78 | a search text written by `filterSearch` reaches the server's name filter but never changes the displayed `query` |
| Search.ChosenCategoryReachesFilter | pages/search.tsx:120-122 | choosing a category in the selector makes the server filter on it, or on nothing for "all" |
| Search.Router.constructor | pages/search.tsx:75-76 | the router starts with its path and query and nothing pushed |
| Search.Router.FilterSearch | pages/search.tsx:74-92 | the router's query becomes the old query merged with the data's truthy fields, and that location is pushed once |
| Store.InitialState | utils/Store.tsx:7-9 | dark mode is on exactly when the `darkMode` cookie is `ON` |
| Store.DarkModeActionsSetTheFlag | utils/Store.tsx:25-28 | `DARK_MODE_ON`/`OFF` set the flag whatever it was |
| Store.ReduceIsIdempotent | utils/Store.tsx:23-32 | dispatching an action twice is the same as once |
| Store.OtherActionsAreIgnored | utils/Store.tsx:29-30 | every action besides the two theme actions leaves the state unchanged, cart and login actions included |
| Store.LastToggle | utils/Store.tsx:23-32 | there is no last theme action exactly when the sequence holds no theme action |
| Store.ReduceAllSnoc | utils/Store.tsx:23-32 | running actions one after another is one reduction per action, in order |
| Store.ReduceAllFollowsLastToggle | utils/Store.tsx:23-32 | after any sequence of actions the flag is the one the last theme action set, or the initial one |
| Store.StateObject | utils/Store.tsx:4-9 | the state object has the property `darkMode`, holding the flag, and no other |
| Store.MissingPropertyThrows | utils/Store.tsx:4-9 | any property other than `darkMode` reads as `undefined`, and a read from it throws a TypeError |
| Store.UserInfoIsUndefined | pages/admin/products.tsx:101 | `state.userInfo` is `undefined` in every state of this store |
| Client.Browser.constructor | utils/Store.tsx:38-40 | the browser starts with the given store and cookies, nothing dispatched, pushed or shown |
| Client.Browser.Dispatch | utils/Store.tsx:40 | dispatching reduces the store with the action and records it; nothing else changes |
| Client.Browser.SetCookie | pages/shipping.tsx:49 | setting a cookie overwrites that name only |
| Client.Browser.Push | pages/shipping.tsx:50 | `router.push` appends the path to the history only |
| Client.Browser.Notify | pages/register.tsx:40-42 | a snackbar appends its message only |
| Client.Browser.CloseNotices | pages/register.tsx:38 | `closeSnackbar()` removes every shown message only |
| Cart.FindIndex | pages/search.tsx:95 | `cartItems.find` finds the first line for the product, or reports that there is none |
| Cart.Quantity | pages/search.tsx:95-96 | the quantity to add is 1 for a new product, else the first matching line's quantity plus 1 |
| Cart.QuantityGrows | pages/search.tsx:95-96 | the requested quantity is at least 1, and at least 2 when the product is already in the cart |
| Cart.AddToCartHandler | pages/search.tsx:94-106 | with too little stock: the out-of-stock message and nothing else. Otherwise: `CART_ADD_ITEM` with the quantity, then `/cart`. The store is unchanged either way |
| Cart.CartItemsAsWritten | pages/search.tsx:95 | as written, `state.cart.cartItems` throws in every store state |
| Home.TopRated | pages/index.tsx:80-85 | at most 6 products, in non-increasing rating, all from the catalogue |
| Home.TopRatedAreTheBest | pages/index.tsx:80-85 | a product left out of the top-rated list means the list is full and all its products rate at least as high |
| Home.Featured | pages/index.tsx:87-92 | at most 3 products, all featured and from the catalogue |
| Home.FeaturedLeavesOutOnlyWhenFull | pages/index.tsx:87-92 | a featured product is left out only when the list already holds 3 |
| Home.GetServerSideProps | pages/index.tsx:77-102 | the props hold at most 3 featured and 6 top-rated products, the featured ones all featured |
| PlaceOrder.Round2 | pages/placeorder.tsx:34 | `round2` gives whole cents within half a cent of its argument |
| PlaceOrder.Round2OfCents | pages/placeorder.tsx:34 | an amount already in whole cents is left as it is |
| PlaceOrder.PriceBreakdown | pages/placeorder.tsx:34-38 | items price within half a cent of the cart subtotal; shipping 0 exactly above 200 and 15 otherwise; tax within half a cent of 15%; all in cents |
| PlaceOrder.TotalIsTheSumOfItsParts | pages/placeorder.tsx:38 | the total is exactly items + shipping + tax |
| PlaceOrder.EmptyCartPaysShippingOnly | pages/placeorder.tsx:35-38 | an empty cart costs 0 + 15 shipping + 0 tax = 15 |
| PlaceOrder.ItemsPriceOfCentPrices | pages/placeorder.tsx:35 | with prices in cents the items price is exactly the subtotal |
| PlaceOrder.SubtotalOfCents | pages/placeorder.tsx:35 | the subtotal of cent prices is in cents |
| PlaceOrder.ShippingThresholdIsStrict | pages/placeorder.tsx:36 | an order of exactly 200 pays shipping, one of 200.01 does not |
| PlaceOrder.ThreeShirts | pages/placeorder.tsx:34-38 | three items at 70 cost 210 + 0 + 31.5 = 241.5 |
| PlaceOrder.PaymentRedirect | pages/placeorder.tsx:40-45 | the page goes to `/payment` exactly when no payment method is chosen |
| PlaceOrder.Subtotal | pages/placeorder.tsx:35 | the sum of the lines is 0 for an empty cart and never negative for non-negative prices and quantities |
| PlaceOrder.CartAsWritten | pages/placeorder.tsx:32 | as written, destructuring `cart` from the state throws in every store state |
| AdminProducts.Reduce | pages/admin/products.tsx:64-97 | each action changes only the fields it names |
| AdminProducts.UnrecognizedIsIdentity | pages/admin/products.tsx:94-95 | an unknown action type returns the state itself |
| AdminProducts.ReduceIsIdempotent | pages/admin/products.tsx:64-97 | every action applied twice is the same as once |
| AdminProducts.RequestsAndOutcomes | pages/admin/products.tsx:69-86 | each request raises its loading flag and clears the error; each outcome lowers it; a success clears the error, a failure stores its message |
| AdminProducts.ResetLeavesErrorUndefined | pages/admin/products.tsx:87-93 | `DELETE_RESET` without payload lowers `successDelete` and leaves `error` undefined |
| AdminProducts.RenderStep | pages/admin/products.tsx:109-134 | a render's actions are one effect run followed by the actions of the re-runs it causes |
| AdminProducts.MountFetchesOnce | pages/admin/products.tsx:55-134 | opening the page dispatches reset, request, outcome. It ends showing the fetched list, or the empty list and the error |
| AdminProducts.DeleteTriggersRefetch | pages/admin/products.tsx:128-134 | after a successful delete the next render resets the flag and fetches the list again |
| AdminProducts.Page.constructor | pages/admin/products.tsx:104-107 | the page starts in the initial state with nothing dispatched |
| AdminProducts.Page.Dispatch | pages/admin/products.tsx:104-107 | dispatching reduces the local state and records the action only |
| AdminProducts.Page.RunEffect | pages/admin/products.tsx:109-132 | one effect run. An anonymous page pushes `/login`; a logged-in one dispatches the effect's actions and ends with `successDelete` false |
| AdminProducts.Page.Step | pages/admin/products.tsx:109-134 | one re-run records the dependency's value and runs the effect. What it dispatches, followed by what later re-runs will dispatch, is what was still due before |
| AdminProducts.Page.Render | pages/admin/products.tsx:109-134 | the effect re-runs while `successDelete` differs from its value at the last run. The state results from exactly the actions of that closed form, and an anonymous page pushes `/login` once |
| AdminProducts.Page.CreateHandler | pages/admin/products.tsx:140-163 | a cancelled dialog does nothing. Success: request, success, the created notice and `/admin/product/<id>`. Failure: request, fail, the error notice |
| AdminProducts.Page.DeleteHandler | pages/admin/products.tsx:165-183 | a cancelled dialog does nothing. Success: request, success, the deleted notice and `successDelete`. Failure: request, fail, the error notice |
| AdminUsers.Reduce | pages/admin/users.tsx:59-86 | each action changes only the fields it names |
| AdminUsers.UnrecognizedIsIdentity | pages/admin/users.tsx:83-84 | an unknown action type returns the state itself |
| AdminUsers.ReduceIsIdempotent | pages/admin/users.tsx:59-86 | every action applied twice is the same as once |
| AdminUsers.RequestsAndOutcomes | pages/admin/users.tsx:64-75 | each request raises its loading flag and clears the error; each outcome lowers it; a success clears the error, a failure stores its message |
| AdminUsers.ResetLeavesErrorUndefined | pages/admin/users.tsx:76-82 | `DELETE_RESET` without payload lowers `successDelete` and leaves `error` undefined |
| AdminUsers.RenderStep | pages/admin/users.tsx:98-123 | a render's actions are one effect run followed by the actions of the re-runs it causes |
| AdminUsers.MountFetchesOnce | pages/admin/users.tsx:51-123 | opening the page dispatches reset, request, outcome. It ends showing the fetched users, or none and the error |
| AdminUsers.DeleteTriggersRefetch | pages/admin/users.tsx:117-123 | after a successful delete the next render resets the flag and fetches the users again |
| AdminUsers.Page.constructor | pages/admin/users.tsx:93-96 | the page starts in the initial state with nothing dispatched |
| AdminUsers.Page.Dispatch | pages/admin/users.tsx:93-96 | dispatching reduces the local state and records the action only |
| AdminUsers.Page.RunEffect | pages/admin/users.tsx:98-121 | one effect run. An anonymous page pushes `/login`; a logged-in one dispatches the effect's actions and ends with `successDelete` false |
| AdminUsers.Page.Step | pages/admin/users.tsx:98-123 | one re-run records the dependency's value and runs the effect. What it dispatches, followed by what later re-runs will dispatch, is what was still due before |
| AdminUsers.Page.Render | pages/admin/users.tsx:98-123 | the effect re-runs while `successDelete` differs from its value at the last run. The state results from exactly the actions of that closed form, and an anonymous page pushes `/login` once |
| AdminUsers.Page.DeleteHandler | pages/admin/users.tsx:129-147 | a cancelled dialog does nothing. Success: request, success, the deleted notice and `successDelete`. Failure: request, fail, the error notice |
| AdminDashboard.Reduce | pages/admin/dashboard.tsx:61-75 | only a success replaces the summary; an unknown action changes nothing |
| AdminDashboard.RequestAndOutcomes | pages/admin/dashboard.tsx:66-71 | the request raises `loading` and clears the error. A success shows the new summary; a failure keeps the old one and stores the message |
| AdminDashboard.FetchSuccessForgetsThePast | pages/admin/dashboard.tsx:66-69 | a request followed by a success ends in the same state from any starting state |
| AdminDashboard.MountEffect | pages/admin/dashboard.tsx:89-110 | an anonymous visitor is sent to `/login` and nothing else. A logged-in one gets FETCH_REQUEST, then FETCH_SUCCESS with the fetched summary or FETCH_FAIL with the error message |
| AdminDashboard.MountShowsSummaryOrError | pages/admin/dashboard.tsx:49-110 | after mounting, the page shows the fetched summary, or the zero summary and the error |
| UserModel.Missing | models/User.ts:4-8 | a draft passes the required-field check exactly when name, email and password are present |
| UserModel.Create | models/User.ts:4-11 | a save succeeds exactly when the required fields are present and the email is unused. The record gets `isAdmin` false by default and both timestamps `now` |
| UserModel.Update | models/User.ts:4-11 | a re-save succeeds exactly when the fields are present and no other user has the email. It keeps id and `createdAt`, sets the fields and the admin flag from the draft (the flag kept when `undefined`), and moves `updatedAt` only when some path changed; an unchanged save leaves the document as it was |
| UserModel.CreateKeepsTableValid | models/User.ts:6 | inserting a saved user keeps ids unique and emails unique |
| UserModel.UpdateKeepsTableValid | models/User.ts:6 | replacing a user with its saved update keeps ids unique and emails unique |
| UserModel.SecondCreateIsDuplicate | models/User.ts:6 | creating the same draft again is refused as a duplicate email |
| UserModel.UserTable.constructor | models/User.ts:13 | the collection starts empty |
| UserModel.UserTable.FindById | pages/api/users/profile.ts:15 | `findById` finds the user with that id, or nothing |
| UserModel.UserTable.Insert | models/User.ts:4-11 | `new User(d).save()` stores the created user under a fresh id, or stores nothing |
| UserModel.UserTable.Save | models/User.ts:4-11 | `user.save()` stores the update in place, or stores nothing |
| Auth.SecretFallsBackToEmpty | utils/auth.ts:15 | the signing secret is `JWT_SECRET`, or `""` when it is unset or empty |
| Auth.SignTokenReadsOnlyClaims | utils/auth.ts:7-20 | the token depends only on the user's id, name, email and admin flag |
| Auth.Token | utils/auth.ts:31 | the token is the header without its first seven characters |
| Auth.Decide | utils/auth.ts:22-47 | no header: 401 "Token is not supplied". A token that fails to verify: 401 "Token is not valid". Otherwise the decoded claims are accepted |
| Auth.BearerHeaderYieldsToken | utils/auth.ts:31 | `Bearer <t>` hands exactly t to the verifier |
| Auth.PrefixIsNotChecked | utils/auth.ts:31 | any seven characters in front of the token get the same decision as `Bearer ` |
| Auth.Exchange.constructor | utils/auth.ts:22-26 | a request starts with its headers, no user, no response and `next` not yet called |
| Auth.IsAuth | utils/auth.ts:22-47 | a rejected request gets its 401 and `next` is not called; an accepted one gets `req.user` and `next` is called once |
| RegisterApi.NewUserDraft | pages/api/users/register.ts:13-19 | the new user holds the body's name and email, the hashed password, and `isAdmin` false; there is no user when there is no password |
| RegisterApi.RegisteredUserIsPlain | pages/api/users/register.ts:13-20 | a registered user is never an admin and stores the hash of the password and the body's name and email |
| RegisterApi.EmptyPasswordIsRegistered | pages/api/users/register.ts:13-20 | with a hash that is never empty (as bcrypt's is), a registration with an empty password is saved |
| RegisterApi.Post | pages/api/users/register.ts:11-31 | with `signToken` imported by name: a saved user is answered with a token and its fields; an unsaved one gets the error |
| RegisterApi.PostAsWritten | pages/api/users/register.ts:6-31 | as written, every request fails. The user is still saved exactly as `Post` saves it |
| RegisterApi.RetryAfterAsWrittenFailureIsRefused | pages/api/users/register.ts:6-31 | after that failure, a retry of the same registration is refused as a duplicate email |
| ProfileApi.Edited | pages/api/users/profile.ts:20-24 | the edited document takes name and email from the body and keeps the admin flag. The password hash is replaced only when a new password is given |
| ProfileApi.UpdateKeepsIdentityAndRole | pages/api/users/profile.ts:13-36 | a saved profile update keeps id, creation time and admin flag, takes the body's name and email, and moves `updatedAt` only when something changed |
| ProfileApi.ResubmittingChangesNothing | pages/api/users/profile.ts:20-25 | resubmitting the stored name and email without a password saves the document unchanged, `updatedAt` included |
| ProfileApi.EmptyNameOrEmailIsRefused | pages/api/users/profile.ts:20-25 | clearing the name or the email makes the save fail |
| ProfileApi.Put | pages/api/users/profile.ts:13-36 | an unknown user gets 404 "not found". Otherwise the update is stored, or nothing is. The answer's token is signed from the updated user |
| FormRules.CheckText | pages/shipping.tsx:82-85 | `required` fails exactly on an empty field; otherwise `minLength` fails exactly when the field is shorter in UTF-16 code units, as JavaScript's `length` counts |
| FormRules.CheckPattern | pages/register.tsx:94-97 | `required` fails exactly on an empty field; otherwise `pattern` fails exactly when it does not match |
| FormRules.Utf16Length | pages/shipping.tsx:82-85 | a string's JavaScript length is at least its number of characters and at most twice it |
| FormRules.Utf16LengthOfBmp | pages/shipping.tsx:82-85 | for text within the Basic Multilingual Plane the JavaScript length is the number of characters |
| FormRules.OneEmojiMeetsMinLengthTwo | pages/shipping.tsx:82-85 | a single emoji is two code units long and so meets `minLength: 2` |
| RegisterPage.EmailPatternMatches | pages/register.tsx:96 | the matcher accepts exactly the strings of `^[a-z0-9._%+-]+@[a-z0-9.-]+\.[a-z]{2,4}$` |
| RegisterPage.UppercaseIsRefused | pages/register.tsx:96 | an address with an upper-case letter never matches |
| RegisterPage.SplitIsUnique | pages/register.tsx:96 | a split that fits the pattern is always at the first `@` and the last dot |
| RegisterPage.ComposedAddressMatches | pages/register.tsx:96 | a non-empty local part, a non-empty domain and a 2-to-4-letter label, each from its class, joined by `@` and `.`, fit the pattern |
| RegisterPage.SampleAddressMatches | pages/register.tsx:96 | `admin@example.com` matches |
| RegisterPage.CapitalisedAddressIsRefused | pages/register.tsx:96 | `Admin@example.com` does not match |
| RegisterPage.ValidFormIff | pages/register.tsx:64-165 | the form submits exactly when the name is 2+ UTF-16 code units long, the email matches and both passwords are 6+ |
| RegisterPage.Submit | pages/register.tsx:37-56 | an invalid form does nothing. Mismatched passwords show only the mismatch message. Otherwise the body is posted: success logs in, sets the cookie and goes to the redirect or `/`; failure shows the error and dispatches, sets and pushes nothing |
| RegisterPage.Mount | pages/register.tsx:26-30 | a logged-in visitor is sent to `/`; nothing else happens |
| ShippingPage.ValidAddressIff | pages/shipping.tsx:78-201 | the address submits exactly when all five fields are at least two UTF-16 code units long |
| ShippingPage.EmptyFieldIsRequired | pages/shipping.tsx:140-143 | an empty city is reported as required and stops the submit |
| ShippingPage.Save | pages/shipping.tsx:48-50 | the address is dispatched, stored in the `shippingAddress` cookie, and the given path is pushed |
| ShippingPage.Submit | pages/shipping.tsx:47-51 | the handler runs exactly on a valid form, saving the address and going to `/payment`; otherwise nothing changes |
| ShippingPage.ChooseLocation | pages/shipping.tsx:53-66 | the current values are saved without validation, and the map is opened |
| ShippingPage.Mount | pages/shipping.tsx:33-43 | an anonymous visitor is sent to `/login?redirect=/shipping`. Either way the form is filled from the stored address |
| ShippingPage.StateAsWritten | pages/shipping.tsx:21-24 | as written, destructuring `cart` from the state throws in every store state |

## Left out

- Database connections and `await` ordering are left out. Each request's answer is a parameter, so interleavings of concurrent requests and renders are not modelled.
- `Number.EPSILON` in `round2` and binary floating point are left out: prices are exact reals.
- `Number` on non-decimal spellings is left out: hexadecimal, exponent, surrounding whitespace and fractions all read as NaN here.
- A query parameter given more than once (`?category=a&category=b`) reaches the page as an array, which goes into the Mongo filter as it is. The model's query maps each name to one string, so repeated parameters are left out.
- RegisterApi.NewUserDraft: `hash` is any function, so the model admits `hash("") == ""`, and then an empty password is refused as missing. bcrypt's hashes are never empty; `RegisterApi.EmptyPasswordIsRegistered` assumes exactly that and shows the user with an empty password is saved.
- The case-insensitive regular-expression name search is a parameter `nameMatches`, not a regex engine.
- Mongo's order among equal sort keys is not modelled. The model keeps input order, which is one of the orders Mongo may return.
- The `featured` sort key is left out: products in this snapshot carry `isFeatured`, so every product ties on it. `models/Product.ts` is not part of this model.
- `Product.find().distinct(...)` returns arrays in the database's order. The model computes the categories and brands as sets from the catalogue, so that order is left out.
- Cookies, axios, notistack and `window.alert` are recorded as effects on `Client.Browser`, not performed. The add-to-cart alert is recorded as a message.
- The JSON encoding of cookies is left out, and so are request headers in the admin pages.
- Error text extraction (`getError`, `err.response.data.message`) is left out: a failed request is given directly as its message.
- next-connect's default error handler is left out: a thrown handler is a `Failed` reply, not a 500 response body.
- bcrypt, `jwt.sign` and `jwt.verify` are function parameters. Token expiry (30 days) is passed through, not checked.
- React rendering, Material-UI layout, the carousel and the chart are left out, and so are the form helper texts.
- The map page, the payment page and the other pages and routes of the repository are not part of this model.
- The home page's `addToCartHandler` (pages/index.tsx:27-39) is the same code as the search page's and is modelled once, as `Cart.AddToCartHandler`.
- Home.GetServerSideProps: states only the bounds. Which products are chosen is proved by `Home.TopRated`, `Home.TopRatedAreTheBest`, `Home.Featured` and `Home.FeaturedLeavesOutOnlyWhenFull`.
- UserModel.Create: ids are sequential numbers from a counter, not Mongo ObjectIds.
- Cart.AddToCartHandler: models the handler against a store whose state holds `cart`. The store of utils/Store.tsx has none, so as written the handler throws at its first read (`Cart.CartItemsAsWritten`), on the home page as on the search page.
- PlaceOrder.PriceBreakdown: models the prices of a cart read from a store that holds one. As written, rendering throws before any price is computed (`PlaceOrder.CartAsWritten`).
- PlaceOrder.PaymentRedirect: models the effect for a store that holds `cart.paymentMethod`. As written, rendering throws before the effect is registered (`PlaceOrder.CartAsWritten`).
- ShippingPage.Mount: models the effect for a store that holds `cart.shippingAddress`. As written, rendering throws first (`ShippingPage.StateAsWritten`), so there is neither redirect nor prefill.
- ShippingPage.Submit: models the handler of a page that renders. As written, rendering throws first (`ShippingPage.StateAsWritten`), so no form or handler exists.
- ShippingPage.ChooseLocation: models the handler of a page that renders. As written, rendering throws first (`ShippingPage.StateAsWritten`), so no map button or handler exists.
- The admin API routes (pages/api/admin/summary.ts:7, pages/api/admin/orders.ts:5, pages/api/admin/users/index.ts:5, pages/api/admin/products/[id]/index.ts:2) import `isAdmin` from utils/auth.ts. That file exports only `signToken` and `isAuth` (utils/auth.ts:49), so `handler.use(isAuth, isAdmin)` receives `undefined` as its second middleware and no admin check exists. These routes and next-connect's handling of that `undefined` are not part of this model.
- Strings are sequences of Unicode scalar values, so a JavaScript string holding an unpaired surrogate cannot be written here.

## Findings

| source | as written | input that shows it | evidently intended | confidence | as-written member | corrected member |
|---|---|---|---|---|---|---|
| pages/api/users/register.ts:6 | `signToken` is a default import, but utils/auth.ts exports it only by name, so the call after the save is a call of `undefined` | any valid registration body: the user is saved, then the handler throws; a retry is refused as a duplicate email | import `{ signToken }` by name, as pages/api/users/profile.ts:5 does | not executed; high | RegisterApi.PostAsWritten | RegisterApi.Post |
| pages/search.tsx:95 | `state.cart.cartItems` reads `cart` from a store state that holds only `darkMode` (utils/Store.tsx:4-9), so the read throws a TypeError; pages/index.tsx:28 has the same line | clicking "add to cart" on any product of the search or home page: nothing is fetched, added or shown | a store whose state holds the cart, as the pages' code assumes | not executed; high | Cart.CartItemsAsWritten | Cart.AddToCartHandler |
| pages/placeorder.tsx:32 | `const { cart: { cartItems, shippingAddress, paymentMethod } } = state` destructures `cart` from a state that has none, so rendering throws | opening `/placeorder` in any store state | a store whose state holds the cart with its payment method | not executed; high | PlaceOrder.CartAsWritten | PlaceOrder.PaymentRedirect |
| pages/shipping.tsx:21-24 | `const { userInfo, cart: { shippingAddress } } = state` destructures `cart` from a state that has none, so rendering throws | opening `/shipping` in any store state | a store whose state holds the user and the cart's shipping address | not executed; high | ShippingPage.StateAsWritten | ShippingPage.Mount |
| pages/search.tsx:39 | the option labelled "$201 to $1000" has the value `201-100` | choosing that option filters on price ≥ 201 and ≤ 100, which no product meets | `201-1000` | not executed; high | Search.ThirdPriceOptionAdmitsNothing | Search.PriceOptionsMatchTheirLabels |
