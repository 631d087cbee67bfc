/**
 * The saved-destination accessor (services/savedDestinationService.ts). Listing and
 * toggling are authoritative: their failures reach the caller. Checking and counting
 * are best effort: every failure turns into `false` or `0`.
 */
module SavedDestinationService {
  import opened Wrappers
  import opened Http
  import Api

  import DestinationService

  /**
   * A destination in the user's saved set; unlike a catalog entry its description and
   * address are always present. `createdAt` is a timestamp, as in the catalog.
   */
  datatype SavedDestination = SavedDestination(
    id: string,
    name: string,
    photos: DestinationService.Photos,
    geo: DestinationService.Geo,
    category: string,
    averageRating: real,
    description: string,
    address: string,
    tags: seq<string>,
    createdAt: int,
    updatedAt: string)

  /** What `toggleSavedDestination` returns: three members of the server's answer, copied as they are. */
  datatype Toggled = Toggled(success: Option<bool>, isSaved: Option<bool>, message: Option<string>)

  const ListFailed := "Failed to fetch saved destinations"
  const ToggleFailed := "Failed to toggle saved destination"
  const CheckFailed := "Failed to check saved status"
  const CountFailed := "Failed to get saved count"

  /** `getAuthToken()`: a failing token store reads as "no token" instead of throwing. */
  function GetAuthToken(stored: StorageRead): (t: Option<string>)
    ensures stored.StorageFailed? ==> t == None
    ensures stored.Stored? ==> t == stored.token
  {
    match stored
    case StorageFailed => None
    case Stored(token) => token
  }

  /** `getAuthHeaders()`: never fails; it authorizes exactly when a truthy token could be read. */
  function GetAuthHeaders(stored: StorageRead): (h: Headers)
    ensures ContentType in h && h[ContentType] == JsonMime
    ensures Authorization in h <==> stored.Stored? && Truthy(stored.token)
    ensures Authorization in h ==> h[Authorization] == "Bearer " + stored.token.value
    ensures h == AuthHeaders(GetAuthToken(stored))
  {
    AuthHeaders(GetAuthToken(stored))
  }

  /** An authoritative call fails: no ok response whose body is JSON. */
  predicate Failed<D>(x: Exchange<D>) {
    !Answered(x, true)
  }

  /** `getSavedDestinations()`. */
  function GetSavedDestinations(cfg: Api.Config, stored: StorageRead, x: Exchange<seq<SavedDestination>>)
    : (r: Call<seq<SavedDestination>>)
    ensures r.sent == Some(Request(Get, Api.Url(cfg, Api.SavedDestinations), GetAuthHeaders(stored), NoPayload))
    ensures r.result.Ok? <==> Answered(x, true)
    ensures r.result.Ok? && x.body.value.data.None? ==> r.result.value == []
    ensures r.result.Ok? && x.body.value.data.Some? ==> r.result.value == x.body.value.data.value
    ensures Answered(x, false) ==> r.result == Err(Thrown(MessageOr(x.body.value.message, ListFailed)))
    ensures Receive(x).Err? ==> r.result == Err(Receive(x).error)
  {
    var request := Request(Get, Api.Url(cfg, Api.SavedDestinations), GetAuthHeaders(stored), NoPayload);
    match Receive(x)
    case Err(e) => Call(Some(request), Err(e))
    case Ok(data) =>
      if !x.ok then Call(Some(request), Err(Thrown(MessageOr(data.message, ListFailed))))
      else Call(Some(request), Ok(data.data.GetOr([])))
  }

  /**
   * `toggleSavedDestination(destinationId)`: the new state is the server's, copied
   * verbatim; nothing is inferred from what the client believed before.
   */
  function ToggleSavedDestination(cfg: Api.Config, stored: StorageRead, destinationId: string, x: Exchange<()>)
    : (r: Call<Toggled>)
    ensures r.sent ==
      Some(Request(Post, Api.Url(cfg, Api.SavedDestinationToggle(destinationId)), GetAuthHeaders(stored), NoPayload))
    ensures r.result.Ok? <==> Answered(x, true)
    ensures r.result.Ok? ==> r.result.value.success == x.body.value.success
    ensures r.result.Ok? ==> r.result.value.isSaved == x.body.value.isSaved
    ensures r.result.Ok? ==> r.result.value.message == x.body.value.message
    ensures Answered(x, false) ==> r.result == Err(Thrown(MessageOr(x.body.value.message, ToggleFailed)))
    ensures Receive(x).Err? ==> r.result == Err(Receive(x).error)
  {
    var request := Request(Post, Api.Url(cfg, Api.SavedDestinationToggle(destinationId)), GetAuthHeaders(stored), NoPayload);
    match Receive(x)
    case Err(e) => Call(Some(request), Err(e))
    case Ok(data) =>
      if !x.ok then Call(Some(request), Err(Thrown(MessageOr(data.message, ToggleFailed))))
      else Call(Some(request), Ok(Toggled(data.success, data.isSaved, data.message)))
  }

  /** `checkIfSaved(destinationId)`: never throws; `true` only on an ok answer whose `isSaved` is true. */
  function CheckIfSaved(cfg: Api.Config, stored: StorageRead, destinationId: string, x: Exchange<()>)
    : (r: Call<bool>)
    ensures r.sent ==
      Some(Request(Get, Api.Url(cfg, Api.SavedDestinationCheck(destinationId)), GetAuthHeaders(stored), NoPayload))
    ensures r.result.Ok?
    ensures r.result.value <==> Answered(x, true) && x.body.value.isSaved == Some(true)
  {
    var request := Request(Get, Api.Url(cfg, Api.SavedDestinationCheck(destinationId)), GetAuthHeaders(stored), NoPayload);
    // The error the try block would throw is caught and replaced by `false`.
    match Receive(x)
    case Err(_) => Call(Some(request), Ok(false))
    case Ok(data) =>
      if !x.ok then Call(Some(request), Ok(false))
      else Call(Some(request), Ok(data.isSaved.GetOr(false)))
  }

  /**
   * `getSavedCount(destinationId)`: never throws, sends no Authorization header
   * (it does not read the token at all), and answers `data.count || 0`.
   */
  function GetSavedCount(cfg: Api.Config, destinationId: string, x: Exchange<()>): (r: Call<int>)
    ensures r.sent == Some(Request(Get, Api.SavedCountUrl(cfg, destinationId), JsonHeaders(), NoPayload))
    ensures Authorization !in r.sent.value.headers
    ensures r.result.Ok?
    ensures r.result.value != 0 ==> Answered(x, true) && x.body.value.count == Some(r.result.value)
    ensures Answered(x, true) && x.body.value.count.Some? ==> r.result.value == x.body.value.count.value
  {
    var request := Request(Get, Api.SavedCountUrl(cfg, destinationId), JsonHeaders(), NoPayload);
    match Receive(x)
    case Err(_) => Call(Some(request), Ok(0))
    case Ok(data) =>
      if !x.ok then Call(Some(request), Ok(0))
      else Call(Some(request), Ok(data.count.GetOr(0)))
  }

  /**
   * Best effort against authoritative: on the same failed exchange, listing and
   * toggling throw while checking and counting answer `false` and `0`.
   */
  lemma FailurePolicies(cfg: Api.Config, stored: StorageRead, id: string,
                        list: Exchange<seq<SavedDestination>>, x: Exchange<()>)
    requires Failed(list) && Failed(x)
    ensures GetSavedDestinations(cfg, stored, list).result.Err?
    ensures ToggleSavedDestination(cfg, stored, id, x).result.Err?
    ensures CheckIfSaved(cfg, stored, id, x).result == Ok(false)
    ensures GetSavedCount(cfg, id, x).result == Ok(0)
  {
  }

  /** The token store failing changes nothing but the Authorization header: every call still goes out. */
  lemma StorageFailureIsAnonymous(cfg: Api.Config, id: string, x: Exchange<()>)
    ensures CheckIfSaved(cfg, StorageFailed, id, x) == CheckIfSaved(cfg, Stored(None), id, x)
    ensures ToggleSavedDestination(cfg, StorageFailed, id, x) == ToggleSavedDestination(cfg, Stored(None), id, x)
    ensures Authorization !in CheckIfSaved(cfg, StorageFailed, id, x).sent.value.headers
  {
  }
}
