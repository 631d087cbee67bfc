/**
 * The destination catalog accessor (services/destinationService.ts): fetch the
 * whole catalog, derive the "popular", "new" and "by category" views from it on
 * the client, and fetch one destination with its ratings.
 */
module DestinationService {
  import opened Wrappers
  import opened Http
  import Api
  import Ordering
  import Text
  import RatingService

  datatype Photos = Photos(main: string, others: seq<string>)
  datatype Geo = Geo(lat: real, lng: real)

  /** A catalog entry; `createdAt` is the creation time as a timestamp. */
  datatype Destination = Destination(
    id: string,
    name: string,
    photos: Photos,
    geo: Geo,
    category: string,
    averageRating: real,
    description: Option<string>,
    address: Option<string>,
    tags: seq<string>,
    createdAt: int,
    updatedAt: string)

  /** What the single-destination endpoint returns: the destination and its embedded ratings. */
  datatype DestinationDetail = DestinationDetail(destination: Destination, ratings: seq<RatingService.Rating>)

  const PopularLimit := 3
  const NewLimit := 5
  const CatalogFailed := "Failed to fetch destinations"
  const DestinationFailed := "Failed to fetch destination"

  /** The sort key of the "popular" view. */
  function RatingKey(d: Destination): real {
    d.averageRating
  }

  /** The sort key of the "new" view. */
  function CreatedKey(d: Destination): real {
    d.createdAt as real
  }

  /** `getAllDestinations()`. */
  function GetAllDestinations(cfg: Api.Config, stored: StorageRead, x: Exchange<seq<Destination>>)
    : (r: Call<seq<Destination>>)
    ensures r.sent.Some? <==> stored.Stored?
    ensures stored.Stored? ==>
      r.sent.value == Request(Get, Api.Url(cfg, Api.Destinations), AuthHeaders(stored.token), NoPayload)
    ensures r.result.Ok? <==> stored.Stored? && Answered(x, true)
    ensures r.result.Ok? && x.body.value.data.None? ==> r.result.value == []
    ensures r.result.Ok? && x.body.value.data.Some? ==> r.result.value == x.body.value.data.value
    ensures stored.Stored? && Answered(x, false) ==>
      r.result == Err(Thrown(StatusMessage(x.body.value.success, CatalogFailed)))
    ensures stored.StorageFailed? ==> r.result == Err(Rethrown(StorageUnavailable))
    ensures stored.Stored? && Receive(x).Err? ==> r.result == Err(Receive(x).error)
  {
    match ReadAuthHeaders(stored)
    case Err(e) => Call(None, Err(e))
    case Ok(headers) =>
      var request := Request(Get, Api.Url(cfg, Api.Destinations), headers, NoPayload);
      match Receive(x)
      case Err(e) => Call(Some(request), Err(e))
      case Ok(body) =>
        if !x.ok then Call(Some(request), Err(Thrown(StatusMessage(body.success, CatalogFailed))))
        else Call(Some(request), Ok(body.data.GetOr([])))
  }

  /** A view derived from the catalog: the same request and errors, and `view` applied to the list. */
  ghost predicate DerivedFrom(r: Call<seq<Destination>>, all: Call<seq<Destination>>,
                              view: seq<Destination> -> seq<Destination>) {
    r.sent == all.sent
    && (all.result.Err? ==> r.result == all.result)
    && (all.result.Ok? ==> r.result == Ok(view(all.result.value)))
  }

  /** `getPopularDestinations(limit = 3)`: the top `limit` destinations by average rating. */
  function GetPopularDestinations(cfg: Api.Config, stored: StorageRead, x: Exchange<seq<Destination>>,
                                  limit: Option<int>): (r: Call<seq<Destination>>)
    ensures DerivedFrom(r, GetAllDestinations(cfg, stored, x),
                        ds => Ordering.TopByKey(ds, RatingKey, limit.GetOr(PopularLimit)))
    ensures r.result.Ok? && limit.None? ==>
      |r.result.value| == if |GetAllDestinations(cfg, stored, x).result.value| < 3 then
                            |GetAllDestinations(cfg, stored, x).result.value| else 3
  {
    var all := GetAllDestinations(cfg, stored, x);
    match all.result
    case Err(e) => Call(all.sent, Err(e))
    case Ok(ds) => Call(all.sent, Ok(Ordering.TopByKey(ds, RatingKey, limit.GetOr(PopularLimit))))
  }

  /** `getNewDestinations(limit = 5)`: the `limit` most recently created destinations. */
  function GetNewDestinations(cfg: Api.Config, stored: StorageRead, x: Exchange<seq<Destination>>,
                              limit: Option<int>): (r: Call<seq<Destination>>)
    ensures DerivedFrom(r, GetAllDestinations(cfg, stored, x),
                        ds => Ordering.TopByKey(ds, CreatedKey, limit.GetOr(NewLimit)))
    ensures r.result.Ok? && limit.None? ==>
      |r.result.value| == if |GetAllDestinations(cfg, stored, x).result.value| < 5 then
                            |GetAllDestinations(cfg, stored, x).result.value| else 5
  {
    var all := GetAllDestinations(cfg, stored, x);
    match all.result
    case Err(e) => Call(all.sent, Err(e))
    case Ok(ds) => Call(all.sent, Ok(Ordering.TopByKey(ds, CreatedKey, limit.GetOr(NewLimit))))
  }

  /** `dest.category.toLowerCase() === category.toLowerCase()`. */
  predicate InCategory(d: Destination, category: string) {
    Text.Lower(d.category) == Text.Lower(category)
  }

  /** `destinations.filter(...)` on the category: every match, in catalog order, and nothing else. */
  function ByCategory(ds: seq<Destination>, category: string): (r: seq<Destination>)
    ensures forall d :: multiset(r)[d] == if InCategory(d, category) then multiset(ds)[d] else 0
    ensures Ordering.IsSubsequence(r, ds)
  {
    if ds == [] then []
    else
      var rest := ByCategory(ds[1..], category);
      assert ds == [ds[0]] + ds[1..];
      if InCategory(ds[0], category) then
        assert ([ds[0]] + rest)[1..] == rest;
        [ds[0]] + rest
      else rest
  }

  /** Categories that differ only in letter case select the same destinations. */
  lemma {:induction false} ByCategoryIgnoresCase(ds: seq<Destination>, c1: string, c2: string)
    requires Text.Lower(c1) == Text.Lower(c2)
    ensures ByCategory(ds, c1) == ByCategory(ds, c2)
  {
    if ds != [] {
      ByCategoryIgnoresCase(ds[1..], c1, c2);
    }
  }

  /** Filtering by the lower-cased category is the same as filtering by the category. */
  lemma ByLoweredCategory(ds: seq<Destination>, category: string)
    ensures ByCategory(ds, Text.Lower(category)) == ByCategory(ds, category)
  {
    Text.LowerIdempotent(category);
    ByCategoryIgnoresCase(ds, Text.Lower(category), category);
  }

  /** `getDestinationsByCategory(category)`. */
  function GetDestinationsByCategory(cfg: Api.Config, stored: StorageRead, x: Exchange<seq<Destination>>,
                                     category: string): (r: Call<seq<Destination>>)
    ensures DerivedFrom(r, GetAllDestinations(cfg, stored, x), ds => ByCategory(ds, category))
  {
    var all := GetAllDestinations(cfg, stored, x);
    match all.result
    case Err(e) => Call(all.sent, Err(e))
    case Ok(ds) => Call(all.sent, Ok(ByCategory(ds, category)))
  }

  /** `getDestinationById(id)`: returns `result.data` as it is, absent or not. */
  function GetDestinationById(cfg: Api.Config, stored: StorageRead, id: string, x: Exchange<DestinationDetail>)
    : (r: Call<Option<DestinationDetail>>)
    ensures r.sent.Some? <==> stored.Stored?
    ensures stored.Stored? ==>
      r.sent.value == Request(Get, Api.Url(cfg, Api.DestinationById(id)), AuthHeaders(stored.token), NoPayload)
    ensures r.result.Ok? <==> stored.Stored? && Answered(x, true)
    ensures r.result.Ok? ==> r.result.value == x.body.value.data
    ensures stored.Stored? && Answered(x, false) ==>
      r.result == Err(Thrown(StatusMessage(x.body.value.success, DestinationFailed)))
    ensures stored.StorageFailed? ==> r.result == Err(Rethrown(StorageUnavailable))
    ensures stored.Stored? && Receive(x).Err? ==> r.result == Err(Receive(x).error)
  {
    match ReadAuthHeaders(stored)
    case Err(e) => Call(None, Err(e))
    case Ok(headers) =>
      var request := Request(Get, Api.Url(cfg, Api.DestinationById(id)), headers, NoPayload);
      match Receive(x)
      case Err(e) => Call(Some(request), Err(e))
      case Ok(body) =>
        if !x.ok then Call(Some(request), Err(Thrown(StatusMessage(body.success, DestinationFailed))))
        else Call(Some(request), Ok(body.data))
  }
}
