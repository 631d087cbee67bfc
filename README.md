# Motour client: destination, rating and saved-destination accessors

A Dafny model of the data-access layer of the Motour travel app's mobile client.
The client reaches a REST backend through three accessor services and one endpoint table:

- the destination catalog accessor (`services/destinationService.ts`);
- the rating accessor (`services/ratingService.ts`);
- the saved-destination accessor (`services/savedDestinationService.ts`);
- the endpoint table (`constants/api.ts`).

All four are pure once their I/O is taken out, so the model is made of datatypes, functions and lemmas.

- **Token store.** Reading the bearer token from the token store (`AsyncStorage.getItem('userToken')`) becomes a parameter, `Http.StorageRead`. It is either the stored token, possibly absent, or a failed read.
- **Network.** `fetch` followed by `response.json()` becomes a parameter, `Http.Exchange<D>`. It is either a transport failure, or a response with its `ok` flag and its decoded body, `Http.Envelope<D>`. The body is `None` when it is not JSON. Members absent from the body are `None`.
- **Calls.** Each service method becomes a function that returns an `Http.Call<T>`. It holds the request the method sends, if it sends one. It also holds what the method returns, or the error it throws. A thrown error is either a message the service builds (`Thrown`) or a re-thrown storage, transport or JSON error (`Rethrown`).

Module layout:

- `Wrappers`: optional values and results.
- `Text`: ASCII `toLowerCase` and `Array.prototype.join`.
- `Ordering`: the stable descending sort, `slice(0, end)`, and the "top N by key" view.
- `Api`: the endpoint table.
- `Http`: headers, exchanges, envelopes and errors.
- `DestinationService`, `RatingService`, `SavedDestinationService`: one module per service.

The client-side views sort with `Array.prototype.sort`, which is stable since ECMAScript 2019. The model sorts by stable insertion. `Ordering.StableSortUnique` proves that at most one sequence is both in non-increasing key order and keeps the fetched order within each key. So the model agrees with whatever stable sort the JavaScript engine uses.

## Model

| member | source | states |
|---|---|---|
| `Http.AuthHeaders` | services/destinationService.ts:31-37 | `Content-Type: application/json` is always present. `Authorization` is present exactly when the token is non-null and non-empty, and then its value is `"Bearer " + token`. There are no other headers. |
| `Http.JsonHeaders` | services/savedDestinationService.ts:113-115 | The anonymous headers are exactly `{Content-Type: application/json}`. |
| `Http.Receive` | services/destinationService.ts:42-47 | A transport failure re-throws the fetch error. A body that is not JSON re-throws the parse error. Otherwise the parsed body goes on, whatever the `ok` flag. |
| `Http.StatusMessage` | services/destinationService.ts:50 | The message of a non-ok response is the call's own message when `success` is true, and `'Network error'` otherwise. |
| `Http.MessageOr` | services/savedDestinationService.ts:53 | The server's `message` is used when it is present and non-empty. Otherwise the call's default message is used. |
| `Http.ReadAuthHeaders` | services/destinationService.ts:31-37 | `getAuthHeaders` of the destination and rating services; the two are identical (services/ratingService.ts:31-37). A failed token read propagates. Otherwise the headers are `AuthHeaders(token)`, with Authorization exactly for a truthy token. |
| `DestinationService.GetAllDestinations` | services/destinationService.ts:39-58 | A GET of `DESTINATIONS` with the auth headers is sent exactly when the token read succeeds. The call returns a list exactly on an ok response with a JSON body: `data`, or `[]` when `data` is absent. A non-ok response throws `'Failed to fetch destinations'` if `success` is true and `'Network error'` otherwise. Storage, transport and JSON errors propagate. |
| `DestinationService.GetPopularDestinations` | services/destinationService.ts:60-71 | Same request and errors as `getAllDestinations`. On success the result is `TopByKey(list, averageRating, limit)` with `limit` defaulting to 3. With the default, the result has `min(3, n)` items. |
| `DestinationService.GetNewDestinations` | services/destinationService.ts:73-84 | Same request and errors as `getAllDestinations`. On success the result is `TopByKey(list, createdAt, limit)` with `limit` defaulting to 5. With the default, the result has `min(5, n)` items. |
| `DestinationService.ByCategory` | services/destinationService.ts:89 | Every destination whose ASCII-lowered category equals the lowered argument is kept, with its full multiplicity. Nothing else is kept. The result is a subsequence of the catalog, so catalog order is kept. |
| `DestinationService.ByCategoryIgnoresCase` | services/destinationService.ts:89 | Two category arguments that lower to the same string select the same destinations. |
| `DestinationService.ByLoweredCategory` | services/destinationService.ts:89 | Filtering by the lowered category gives the same result as filtering by the category. |
| `DestinationService.GetDestinationsByCategory` | services/destinationService.ts:86-94 | Same request and errors as `getAllDestinations`. On success the result is `ByCategory(list, category)`. |
| `DestinationService.GetDestinationById` | services/destinationService.ts:96-115 | Sends a GET of `DESTINATION_BY_ID(id)` with the auth headers. On an ok response it returns `result.data` unchanged, even when absent. On a non-ok response it throws `'Failed to fetch destination'` or `'Network error'` by the `success` rule. Other errors propagate. |
| `Ordering.SortDesc` | services/destinationService.ts:65 | The sort keeps the length and the multiset of items. Its result is in non-increasing key order. |
| `Ordering.InsertSorted` | services/destinationService.ts:65 | Inserting an item into a non-increasing sequence keeps it non-increasing. |
| `Ordering.InsertKeyFilter` | services/destinationService.ts:65 | An inserted item lands in front of the items with its own key. Items with other keys are undisturbed. |
| `Ordering.SortDescStable` | services/destinationService.ts:65 | For every key, the items with that key come out of the sort in the order they went in (stability). |
| `Ordering.StableSortUnique` | services/destinationService.ts:78 | Two sequences in non-increasing key order with the same per-key order are equal. |
| `Ordering.SortDescCharacterized` | services/destinationService.ts:64-66 | `r == SortDesc(s)` holds exactly when `r` is in non-increasing key order and has the same per-key order as `s`. So the model's sort is the stable descending sort. |
| `Ordering.SliceEnd` | services/destinationService.ts:66 | `slice(0, end)` keeps `min(end, n)` items for `end >= 0`. For a negative `end` it keeps `max(n + end, 0)`. |
| `Ordering.Slice` | services/destinationService.ts:66 | `slice(0, end)` is a prefix of its input, of length `SliceEnd`. |
| `Ordering.KeyFilterOfPrefix` | services/destinationService.ts:66 | The items of one key in a prefix are a prefix of that key's items in the whole sequence. |
| `Ordering.PrefixOutranksRest` | services/destinationService.ts:64-66 | In a sorted sequence, every item of a prefix ranks at least as high as every item left out. |
| `Ordering.TopByKey` | services/destinationService.ts:64-66 | The result has `min(limit, n)` items for `limit >= 0`, and `max(n + limit, 0)` for a negative limit. It is in non-increasing key order and is a sub-multiset of the fetched list. Every kept item ranks at least as high as every item left out. The kept items of each key are the first ones of that key in fetched order. |
| `Text.Lower` | services/destinationService.ts:89 | Lowering keeps the length and maps each character through ASCII lower-casing. |
| `Text.LowerIdempotent` | services/destinationService.ts:89 | A lowered string holds no capital letter. Lowering it again changes nothing. |
| `Text.JoinLength` | services/ratingService.ts:75 | A join's length is the total length of the elements plus one separator between each pair of neighbours. |
| `Text.JoinElement` | services/ratingService.ts:75 | Every element appears verbatim in the join, at its offset. |
| `RatingService.GetRatingsForDestination` | services/ratingService.ts:39-58 | Sends a GET of `DESTINATION_RATINGS(id)` with the auth headers. On an ok response it returns `data`, or `[]` when absent. On a non-ok response it throws `'Failed to fetch ratings'` or `'Network error'` by the `success` rule. Other errors propagate. |
| `RatingService.SubmitErrorMessage` | services/ratingService.ts:75 | An error list gives its elements joined by `", "`. A non-empty error string gives that string. An absent or empty error gives `'Failed to submit rating'`. |
| `RatingService.SubmitErrorKeepsEveryMessage` | services/ratingService.ts:75 | Every message of an error list appears verbatim in the thrown message, at its join offset. |
| `RatingService.SubmitErrorEdgeCases` | services/ratingService.ts:75 | A one-element list gives that element. An empty list gives `""`, not the default. Two messages are separated by `", "`. |
| `RatingService.SubmitRating` | services/ratingService.ts:60-83 | Sends a POST of `DESTINATION_RATINGS(id)` with the auth headers and the body `{rating, comment}`. The rating is unchanged and the comment defaults to `''`. On an ok response it returns `result.data` unchanged. On a non-ok response it throws `SubmitErrorMessage(error)`. Other errors propagate. |
| `RatingService.SubmitForwardsAnyRating` | services/ratingService.ts:60-70 | `submitRating` itself does no range check. Any rating value is sent as it is, and the outcome does not depend on it. |
| `SavedDestinationService.GetAuthToken` | services/savedDestinationService.ts:25-32 | A failing token read gives no token instead of an error. |
| `SavedDestinationService.GetAuthHeaders` | services/savedDestinationService.ts:34-40 | Never fails. Authorization is present exactly when the read succeeded with a truthy token, with value `"Bearer " + token`. |
| `SavedDestinationService.GetSavedDestinations` | services/savedDestinationService.ts:42-61 | Always sends a GET of `SAVED_DESTINATIONS`. On an ok response it returns `data.data`, or `[]`. On a non-ok response it throws `data.message`, or `'Failed to fetch saved destinations'` when the message is absent. Transport and JSON errors propagate. |
| `SavedDestinationService.ToggleSavedDestination` | services/savedDestinationService.ts:63-86 | Always sends a POST of `SAVED_DESTINATION_TOGGLE(id)`. On an ok response it returns the server's `success`, `isSaved` and `message` verbatim. On a non-ok response it throws `data.message`, or the default message. Other errors propagate. |
| `SavedDestinationService.CheckIfSaved` | services/savedDestinationService.ts:88-107 | Never throws. The answer is true exactly when the response is ok, the body is JSON and `isSaved` is true. |
| `SavedDestinationService.GetSavedCount` | services/savedDestinationService.ts:109-129 | Never throws. It sends only `Content-Type` to `SAVED_DESTINATIONS + "/count/" + id`. A non-zero answer is the `count` of an ok response. An ok response's `count`, when present, is returned. |
| `SavedDestinationService.FailurePolicies` | services/savedDestinationService.ts:52-128 | When the exchange fails, listing and toggling throw, while checking answers `false` and counting answers `0`. |
| `SavedDestinationService.StorageFailureIsAnonymous` | services/savedDestinationService.ts:25-40 | A failing token store behaves exactly like an absent token. The calls still go out, without Authorization. |
| `Api.BaseUrl` | constants/api.ts:4-25 | In development, `android` and `ios` give `http://192.168.1.230:3000` and any other platform gives `http://localhost:3000`. Outside development the base is `https://motour_server_101.onrender.com`. Each is chosen exactly in its case. |
| `Api.ApiBaseUrl` | constants/api.ts:27 | `API_BASE_URL` is the base URL followed by `/api`. |
| `Api.Url` | constants/api.ts:28-44 | Every endpoint starts with `API_BASE_URL + "/"`, followed by its path. |
| `Api.SavedCountUrl` | services/savedDestinationService.ts:111 | The count URL is `SAVED_DESTINATIONS + "/count/" + id`, so it starts with `API_BASE_URL + "/"`. |
| `Api.IdBuilders` | constants/api.ts:38-43 | The id builders append the id verbatim to the collection URL, directly or after `check/`. `DESTINATION_RATINGS(id)` is `DESTINATION_BY_ID(id) + "/ratings"`. |
| `Api.IdRecoverable` | constants/api.ts:39-43 | For `DESTINATION_BY_ID`, `SAVED_DESTINATION_TOGGLE` and `SAVED_DESTINATION_CHECK`, the id is the suffix of the URL. `DESTINATION_RATINGS` is left out, since its URL ends in `/ratings`. |
| `Api.IdInjective` | constants/api.ts:39-43 | For each of the four id-taking builders (`DESTINATION_BY_ID`, `DESTINATION_RATINGS`, `SAVED_DESTINATION_TOGGLE`, `SAVED_DESTINATION_CHECK`), two URLs are equal only when their ids are equal. |
| `Api.ToggleAndCheckDiffer` | constants/api.ts:42-43 | For the same id, the check URL is six characters longer than the toggle URL, so the two differ. |

## Behaviour of the code worth noting

- **Catalog errors.** Whether a catalog call fails is decided by the HTTP `ok` flag alone, not by the body's `success` flag. `success` only chooses between two messages, and an ok response with `success: false` still returns its `data`.
- **Rating range.** `ratingService.submitRating` sends any rating value and does not check the range 1 to 5 (`RatingService.SubmitForwardsAnyRating`). The destination detail screen, which is not part of this model, rejects a rating of 0 before calling it, and its star picker offers only 1 to 5 (app/destination/[id].tsx:100-103, 134-138).
- **Saved count URL.** The saved-destination service asks for a count only at `/saved-destinations/count/<id>`, per destination and without an Authorization header. The profile screen, which is not part of this model, asks `/saved-destinations/user/count` with Authorization (app/(tabs)/profile.tsx:103).
- **Empty error list.** `submitRating` given an empty `error` array throws an empty message, not the default one (`RatingService.SubmitErrorEdgeCases`).

## Left out

- **Real I/O.** `fetch`, `response.json()` and `AsyncStorage` are replaced by the abstract exchange and storage-read parameters described above.
- **Logging.** `console.error` has no effect on results.
- **UI code.** The screens, navigation, styling and login form are presentational code and are not part of this model.
- **Build constants.** `__DEV__` and `Platform.OS` are parameters (`Api.Config`), not detected at run time.
- **Number and date semantics.** `averageRating` is a `real` and `createdAt` an integer timestamp, in both the catalog entry and the saved entry; `updatedAt` stays a string. Parsing `createdAt` with `Date`, NaN from an unparseable date, and float subtraction in the comparators are not modelled.
- **Non-integer arguments.** A non-integer `limit` passed to `slice` is not modelled; limits are integers. The same goes for a non-integer rating, which is modelled as an integer.
- `Text.Lower`: lowers ASCII letters only. JavaScript's `toLowerCase` also maps non-ASCII letters.
- **Dynamic body shapes.** Body members of unexpected JSON types are not modelled. This covers an `error` that is neither a string nor an array of strings, a non-boolean `isSaved`, a non-number `count`, and a body that is JSON but not an object. Each body member is a typed optional value.
- **Server behaviour.** The server's state is not modelled: the flip performed by the toggle endpoint, average-rating recomputation, and 401-driven logout. The three modelled services never act on these. The profile screen clears the token and redirects on a 401 (app/(tabs)/profile.tsx:89-93, 143-146), and the detail screen recomputes the average after a submit (app/destination/[id].tsx:114-117); both screens are outside this model.
