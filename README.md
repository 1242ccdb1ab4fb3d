# Pearl store: cart, catalogue and session rules

This project models the logic of a small pearl-jewellery shop in Dafny. The backend is a FastAPI
server over MongoDB, and the app is a React Native storefront. Modelled:

- the server's cart endpoints: add a pearl, set a line's quantity, remove a line, and read the priced cart;
- the stock query and the lookup of one pearl;
- the resolution of a request's session token to a user, and logout;
- the products screen's category and search filter.

The database collections are in-memory fields of the `Store` class:
`pearls`, `users` and `sessions` are sequences, and `carts` is a map from the owner's user id to the cart.
Where `find_one` could match several documents, the model returns the first match.
Prices are integers (cents on the server, whole units on the screen), and times are integers.
Generated ids and the current time are parameters.
Every cart endpoint receives the user that session resolution produced for the request (or none).

Modules:

- `Wrappers`: `Option`, `Result`, the `{success, message}` reply, and the HTTP errors the server raises.
- `Seqs`: order-preserving `Filter` and the subsequence relation, with their lemmas.
- `Text`: ASCII lower-casing and substring search.
- `Catalog`: `GET /pearls` and `GET /pearls/{id}`.
- `Carts`: a cart's line list.
  - Functions: what add, set-quantity and remove do to the list.
  - Methods: the two search loops the endpoints run.
  - Lemmas: merge versus append, nothing else changes, counts, idempotence, and that pearls stay distinct.
- `CartSummary`: the `GET /cart` loops and the lemmas on the totals they produce.
- `Sessions`: choosing the token, finding and expiring sessions, finding the user, and logout's deletion.
- `Store`: the `Store` class with the collections and the endpoints as methods. Its invariant is that
  each cart is filed under its owner and holds at most one line per pearl.
- `ProductsScreen`: the screen's filter over its fixed list of six pearls.

A quantity of zero or less in an update removes the line (backend/server.py:397-398).
An add accepts any integer quantity, negative included (backend/server.py:93-95, 365).

## Model

| member | source | states |
|---|---|---|
| `Catalog.FindPearl` | backend/server.py:289-290 | the result is a pearl of the collection with the requested id; there is none exactly when no pearl has that id |
| `Catalog.GetPearl` | backend/server.py:287-292 | returns a pearl of the collection with that id, or 404 "Pearl not found" exactly when no pearl has it |
| `Catalog.GetPearls` | backend/server.py:284-285 | returns as many pearls as match, but never more than 100 |
| `Catalog.GetPearlsSound` | backend/server.py:273-282 | every returned pearl is in the collection and in stock; its category is the requested one unless the category is absent, empty or "all"; its name or description contains the search ignoring case unless the search is absent or empty |
| `Catalog.GetPearlsComplete` | backend/server.py:271-285 | when at most 100 pearls match, every in-stock pearl meeting both restrictions is returned |
| `Catalog.GetPearlsOrdered` | backend/server.py:284 | the result is the start of the matching pearls in collection order, a subsequence of the collection and no longer than it |
| `Catalog.Matching` | backend/server.py:273-284 | definition: the pearls meeting the query, in collection order; no more than the collection. Its properties are in `GetPearlsSound`, `GetPearlsComplete` and `GetPearlsOrdered` |
| `Catalog.UnrestrictedQueryIsStock` | backend/server.py:273-278 | with neither category nor search, the query selects exactly the in-stock pearls |
| `Carts.FirstMatch` | backend/server.py:358-361 | the index of the first line matching the key; none exactly when no line matches |
| `Carts.FindLine` | backend/server.py:358-361 | the search loop with `break` finds the first line holding the pearl, or none |
| `Carts.SetQuantity` | backend/server.py:405-409 | the loop sets the quantity of the first line with the id and stops; the result is `WithQuantity` |
| `Carts.Merge` | backend/server.py:354-376 | definition: the lines grow by at most one. Its properties are in `MergeIntoExisting`, `MergeAppendsNew`, `MergeAddsQuantity` and `MergeKeepsPearlsDistinct` |
| `Carts.WithQuantity` | backend/server.py:404-409 | definition: the number of lines is kept. Its properties are in `WithQuantitySetsFirst`, `WithQuantityAbsent` and `WithQuantityKeepsPearls` |
| `Carts.Without` | backend/server.py:385-388 | definition: no more lines than before. Its properties are in `WithoutRemovesExactly`, `WithoutIdempotent`, `WithoutAbsent`, `WithoutCount` and `WithoutKeepsPearlsDistinct` |
| `Carts.Count` | backend/server.py:334 | definition: the sum of all stored quantities. Its properties are in `MergeAddsQuantity`, `WithQuantitySetsFirst` and `WithoutCount` |
| `Carts.AddedTo` | backend/server.py:347-376 | an existing cart keeps every field except its lines, which are merged or appended, and its update time; a missing cart is created holding just the new line (the corrected behaviour) |
| `Carts.AddToCartAsWritten` | backend/server.py:348-355 | as written, an add succeeds exactly when a cart already existed; otherwise it answers 500 and leaves an empty cart stored |
| `Carts.MergeIntoExisting` | backend/server.py:363-369 | when the pearl is already in the cart, its first line becomes the same line with the quantity added (id, pearl and added time kept), the number of lines is unchanged, and every other line is untouched |
| `Carts.MergeAppendsNew` | backend/server.py:370-376 | when the pearl is not in the cart, exactly one new line with the given id, pearl and quantity is appended at the end |
| `Carts.MergeAddsQuantity` | backend/server.py:354-376 | an add grows the cart's count, and that pearl's quantity, by exactly the added quantity |
| `Carts.MergeKeepsPearlsDistinct` | backend/server.py:354-376 | an add never creates a second line for a pearl |
| `Carts.AddedToAddsQuantity` | backend/server.py:347-376 | after the corrected add, the cart holds the added quantity more of the pearl and in all, whether or not a cart existed |
| `Carts.AsWrittenLosesFirstAdd` | backend/server.py:349-355 | as written, a first add of a non-zero quantity for a user without a cart fails and stores no line; the corrected add stores exactly the one line |
| `Carts.WithQuantitySetsFirst` | backend/server.py:404-409 | setting a quantity changes the first line with that id to the new quantity and leaves every other line, the order and the length as they were; the count changes by the difference |
| `Carts.WithQuantityAbsent` | backend/server.py:404-414 | setting the quantity of an id no line has changes no line |
| `Carts.WithQuantityKeepsPearls` | backend/server.py:406-409 | setting a quantity keeps every line's id and pearl, so pearls stay distinct |
| `Carts.WithoutRemovesExactly` | backend/server.py:385-388 | after removal no line has the id, every line without that id remains, and the remaining lines keep their order |
| `Carts.WithoutIdempotent` | backend/server.py:385-388 | removing the same id twice leaves the lines as removing it once |
| `Carts.WithoutAbsent` | backend/server.py:385-388 | removing an id no line has leaves the lines unchanged |
| `Carts.WithoutCount` | backend/server.py:385-388 | removal lowers the count by exactly the quantities of the removed lines |
| `Carts.WithoutKeepsPearlsDistinct` | backend/server.py:385-388 | removal never creates two lines for one pearl |
| `CartSummary.Lines` | backend/server.py:319-328 | no more summary lines than cart lines; each lists a catalogue pearl and totals its price times its quantity. Which lines are listed, and how, is in `PresentPearlIsListed` and `MissingPearlCountsOnly` |
| `CartSummary.PresentPearlIsListed` | backend/server.py:319-334 | a line whose pearl the catalogue has is listed after the earlier lines, with its own id, the catalogue pearl and its quantity; its price times quantity adds to the total, and its quantity to the count |
| `CartSummary.Summarize` | backend/server.py:316-335 | the two loops produce the lines whose pearl exists, the sum of their price times quantity, and the sum of all stored quantities |
| `CartSummary.Total` | backend/server.py:316-329 | definition: price times quantity summed over the lines whose pearl exists. Its properties are in `TotalIsSumOfLines`, `PresentPearlIsListed` and `MissingPearlCountsOnly` |
| `CartSummary.TotalIsSumOfLines` | backend/server.py:319-333 | the reported total is the sum of the reported line totals |
| `CartSummary.MissingPearlCountsOnly` | backend/server.py:319-334 | a line whose pearl is missing from the catalogue is not listed and adds nothing to the total, but its quantity is counted |
| `CartSummary.TwoLineScenario` | backend/server.py:316-335 | two at 100.00 and one at 50.00 give count 3 and total 250.00; without the second line, count 2 and total 200.00 |
| `Sessions.PresentedToken` | backend/server.py:104-111 | a non-empty cookie is used; otherwise non-empty bearer credentials; otherwise there is no token |
| `Sessions.FindSession` | backend/server.py:114 | the index of a session holding the token; none exactly when no session holds it |
| `Sessions.FindUser` | backend/server.py:121 | a user of the collection with the id; none exactly when no user has it |
| `Sessions.Resolve` | backend/server.py:104-125 | no token exactly when neither credential is non-empty; an expired result names an expired session holding the token; a resolved user exists and owns the session that the lookup by token finds, which is unexpired |
| `Sessions.LiveSessionResolves` | backend/server.py:113-125 | a presented token whose session is unexpired and whose user exists resolves to that user |
| `Sessions.MissingUserYieldsNone` | backend/server.py:114-123 | a presented token whose session is unexpired but whose user no longer exists yields no user |
| `Sessions.DeleteAt` | backend/server.py:116-117 | deleting one session keeps all others, in order |
| `Sessions.EndSessions` | backend/server.py:258-259 | definition: no more sessions than before. Its properties are in `EndSessionsKeepsOthers` and `LoggedOutUserNeverResolves` |
| `Sessions.CookieTakesPriority` | backend/server.py:103-108 | with a non-empty cookie the Authorization header does not affect the outcome |
| `Sessions.NoCredentialsNoUser` | backend/server.py:110-111 | without a non-empty token the request is anonymous |
| `Sessions.ExpiredTokenRejected` | backend/server.py:114-118 | when the token's session has expired, no user results and that session is the one to delete |
| `Sessions.LoggedOutUserNeverResolves` | backend/server.py:256-259 | after a user's sessions are deleted, no credentials resolve to that user |
| `Sessions.EndSessionsKeepsOthers` | backend/server.py:258-259 | logout deletes exactly the sessions of that user and keeps the others in order |
| `Store.Removed` | backend/server.py:385-388 | only the user's cart changes, and only its lines (which lose the id) and its update time; without a cart nothing changes |
| `Store.Store.GetCurrentUser` | backend/server.py:98-125 | returns the resolved user or none; deletes the session exactly when it was found expired; nothing else changes |
| `Store.Store.Logout` | backend/server.py:256-262 | always reports success; a signed-in user's sessions are all deleted, nothing else changes |
| `Store.Store.GetCart` | backend/server.py:304-335 | 401 without a user; a user without a cart gets a new empty cart and an empty summary; otherwise the summary of the stored lines, with the carts unchanged |
| `Store.Store.AddToCart` | backend/server.py:337-378 | the corrected add (see Findings; `Carts.AddToCartAsWritten` is the code as written): 401 without a user and 404 for an unknown pearl, both leaving the carts unchanged; otherwise only the user's cart changes, to `AddedTo`, which creates a missing cart |
| `Store.Store.RemoveFromCart` | backend/server.py:380-390 | 401 without a user; otherwise success, and the carts become the removal result |
| `Store.Store.UpdateCartItem` | backend/server.py:392-416 | 401 without a user; a quantity of zero or less has exactly the effect and reply of removal; otherwise 404 without a cart, else the quantity of the first line with that id is set |
| `Store.RemovedTwice` | backend/server.py:385-388 | removing the same line twice gives the same carts as removing it once (the update time of the second call stays) |
| `Store.RemovedAbsent` | backend/server.py:385-388 | removing an id the cart does not hold changes only the cart's update time |
| `Text.QueryCaseIrrelevant` | frontend/app/products.tsx:97-98 | the case-insensitive search gives the same answer for a query and its lower-cased form |
| `Text.EmptyQueryMatches` | frontend/app/products.tsx:97-98 | an empty query is found in every text |
| `ProductsScreen.FilteredPearls` | frontend/app/products.tsx:95-100 | definition: never more pearls than the list. Its properties are in the `Filtered*`, `FiltersCommute` and `SearchIgnoresQueryCase` lemmas below |
| `ProductsScreen.FilteredSound` | frontend/app/products.tsx:95-99 | every pearl shown is in the list, has the selected category unless "all" is selected, and its lower-cased name or description contains the lower-cased query |
| `ProductsScreen.FilteredComplete` | frontend/app/products.tsx:95-100 | every listed pearl meeting both predicates is shown |
| `ProductsScreen.FilteredOrdered` | frontend/app/products.tsx:95 | the pearls shown are a subsequence of the list, so never more numerous |
| `ProductsScreen.ClearedFilterShowsAll` | frontend/app/products.tsx:159-160 | with "all" selected and the search cleared, the whole list is shown |
| `ProductsScreen.FiltersCommute` | frontend/app/products.tsx:96-99 | category then search, and search then category, both give the screen's result |
| `ProductsScreen.SearchIgnoresQueryCase` | frontend/app/products.tsx:97-98 | the query's case does not change the result |
| `ProductsScreen.UnknownCategoryShowsNothing` | frontend/app/products.tsx:95-100 | a category no listed pearl has shows nothing |
| `ProductsScreen.AkoyaChipShowsTwo` | frontend/app/products.tsx:32-100 | on the screen's own list, the "akoya" chip with an empty search shows pearls 1 and 5, in that order |

## Findings

| source | as written | input that shows it | evidently intended | confidence | as-written member | corrected member |
|---|---|---|---|---|---|---|
| backend/server.py:349-355 | With no stored cart, the endpoint builds a `Cart` model, stores it, then calls `.get("items", [])` on the model. The model has no `get`, so the request fails with 500 and the empty cart stays stored. | A signed-in user who has never opened the cart adds a known pearl with quantity 1. | The new cart holds the added line. | high; not executed | `Carts.AddToCartAsWritten`, `Carts.AsWrittenLosesFirstAdd` | `Carts.AddedTo`, `Carts.AddedToAddsQuantity` |

## Left out

- MongoDB access, FastAPI routing and dependency injection, CORS, cookie setting and deletion, and logging are I/O or framework plumbing. The collections are fields, and each endpoint takes the resolved user as a parameter.
- `process_session` is a call to an outside authentication service, and `init_sample_data` only seeds the database. `create_pearl` and `get_me` are not among the modelled endpoints. `get_me` only maps "no user" to 401.
- The search is a MongoDB `$regex`, and the app uses Unicode `toLowerCase`. Both are modelled as a literal substring match that ignores ASCII case only.
- Prices are floats in the source and integers here. The app's `toFixed` formatting is not modelled.
- The ids come from `uuid4` and the times from `datetime.now`. Both are parameters here. One `now` serves a request, though the code reads the clock once per write.
- Line ids are not proved unique; that would rely on `uuid4` never repeating.
- Requests are atomic here. The awaits inside one request could interleave with other requests, and those races are not modelled.
- Only one cart per user is modelled: `carts` is a map keyed by user id. Two racing first requests could store two carts, and `find_one` would then pick one.
- The endpoints edit a local copy of the line list in place and then write it back. Here that copy is a sequence value. No one else can see the copy, so no aliasing is lost.
- `Sessions.IsExpired` compares expiry times as integers. It assumes a stored expiry time can be compared with the clock. The database client is created without `tz_aware` (backend/server.py:21), so the driver may read `expires_at` back as a naive datetime. Comparing that with the timezone-aware `datetime.now(timezone.utc)` (backend/server.py:115) would raise an error. That error path is not modelled.
- Pydantic re-validation of stored documents (`Pearl(**pearl)`, `User(**user_doc)`) and the response models are not modelled.
- The app's cart, product, profile, index, about and layout screens only fetch data and show it. The mismatch between the JSON body that `cart.tsx` sends and the `quantity` query parameter the server reads is an interface matter.
- `Catalog.FindPearl`, `Sessions.FindSession`, `Sessions.FindUser`: the contracts do not say that the first match is returned. The bodies return it, but MongoDB does not promise an order for `find_one`. Likewise, the order of a sequence stands for the order in which the database returns documents. `find` without a sort (backend/server.py:284) does not promise that order, so `GetPearls` and `GetPearlsOrdered` fix which 100 pearls come back when more than 100 match, which the database leaves open.
