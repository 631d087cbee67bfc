/**
 * The rating accessor (services/ratingService.ts): list the ratings of a
 * destination, and submit a rating with an optional comment.
 */
module RatingService {
  import opened Wrappers
  import opened Http
  import Api
  import Text

  /** The user a rating belongs to, as the server embeds it. */
  datatype Author = Author(id: string, email: string, name: Option<string>)

  datatype Rating = Rating(
    id: string,
    destinationId: string,
    userId: Author,
    rating: int,
    comment: string,
    createdAt: string)

  const RatingsFailed := "Failed to fetch ratings"
  const SubmitFailed := "Failed to submit rating"

  /** `getRatingsForDestination(destinationId)`. */
  function GetRatingsForDestination(cfg: Api.Config, stored: StorageRead, destinationId: string,
                                    x: Exchange<seq<Rating>>): (r: Call<seq<Rating>>)
    ensures r.sent.Some? <==> stored.Stored?
    ensures stored.Stored? ==>
      r.sent.value == Request(Get, Api.Url(cfg, Api.DestinationRatings(destinationId)), AuthHeaders(stored.token), NoPayload)
    ensures r.result.Ok? <==> stored.Stored? && Answered(x, true)
    ensures r.result.Ok? && x.body.value.data.None? ==> r.result.value == []
    ensures r.result.Ok? && x.body.value.data.Some? ==> r.result.value == x.body.value.data.value
    ensures stored.Stored? && Answered(x, false) ==>
      r.result == Err(Thrown(StatusMessage(x.body.value.success, RatingsFailed)))
    ensures stored.StorageFailed? ==> r.result == Err(Rethrown(StorageUnavailable))
    ensures stored.Stored? && Receive(x).Err? ==> r.result == Err(Receive(x).error)
  {
    match ReadAuthHeaders(stored)
    case Err(e) => Call(None, Err(e))
    case Ok(headers) =>
      var request := Request(Get, Api.Url(cfg, Api.DestinationRatings(destinationId)), headers, NoPayload);
      match Receive(x)
      case Err(e) => Call(Some(request), Err(e))
      case Ok(body) =>
        if !x.ok then Call(Some(request), Err(Thrown(StatusMessage(body.success, RatingsFailed))))
        else Call(Some(request), Ok(body.data.GetOr([])))
  }

  /**
   * The message `submitRating` throws on a non-ok response: a list of errors is
   * joined with `", "`, a non-empty single error is used as it is, anything else
   * gives the default message.
   */
  function SubmitErrorMessage(error: Option<ErrorField>): (m: string)
    ensures error.Some? && error.value.ErrorList? ==> m == Text.Join(error.value.items, ", ")
    ensures error.Some? && error.value.ErrorText? && error.value.text != "" ==> m == error.value.text
    ensures error.None? || error == Some(ErrorText("")) ==> m == SubmitFailed
  {
    match error
    case Some(ErrorList(items)) => Text.Join(items, ", ")
    case Some(ErrorText(text)) => MessageOr(Some(text), SubmitFailed)
    case None => SubmitFailed
  }

  /** Every message of an error list appears verbatim in the thrown message, in list order. */
  lemma SubmitErrorKeepsEveryMessage(items: seq<string>, i: nat)
    requires i < |items|
    ensures var m := SubmitErrorMessage(Some(ErrorList(items)));
      var at := Text.JoinOffset(items, ", ", i);
      at + |items[i]| <= |m| && m[at..at + |items[i]|] == items[i]
  {
    Text.JoinElement(items, ", ", i);
  }

  /** A single-message list gives that message; an empty list gives an empty message, not the default. */
  lemma SubmitErrorEdgeCases(text: string)
    ensures SubmitErrorMessage(Some(ErrorList([text]))) == text
    ensures SubmitErrorMessage(Some(ErrorList([]))) == ""
    ensures SubmitErrorMessage(Some(ErrorList(["Rating is required", "Comment too long"])))
         == "Rating is required, Comment too long"
  {
  }

  /** `submitRating(destinationId, rating, comment = '')`: the body is `{rating, comment}`. */
  function SubmitRating(cfg: Api.Config, stored: StorageRead, destinationId: string, rating: int,
                        comment: Option<string>, x: Exchange<Rating>): (r: Call<Option<Rating>>)
    ensures r.sent.Some? <==> stored.Stored?
    ensures stored.Stored? ==> r.sent.value.verb == Post
    ensures stored.Stored? ==> r.sent.value.url == Api.Url(cfg, Api.DestinationRatings(destinationId))
    ensures stored.Stored? ==> r.sent.value.headers == AuthHeaders(stored.token)
    ensures stored.Stored? ==> r.sent.value.payload.RatingPayload? && r.sent.value.payload.rating == rating
    ensures stored.Stored? && comment.Some? ==> r.sent.value.payload.comment == comment.value
    ensures stored.Stored? && comment.None? ==> r.sent.value.payload.comment == ""
    ensures r.result.Ok? <==> stored.Stored? && Answered(x, true)
    ensures r.result.Ok? ==> r.result.value == x.body.value.data
    ensures stored.Stored? && Answered(x, false) ==>
      r.result == Err(Thrown(SubmitErrorMessage(x.body.value.error)))
    ensures stored.StorageFailed? ==> r.result == Err(Rethrown(StorageUnavailable))
    ensures stored.Stored? && Receive(x).Err? ==> r.result == Err(Receive(x).error)
  {
    match ReadAuthHeaders(stored)
    case Err(e) => Call(None, Err(e))
    case Ok(headers) =>
      var request := Request(Post, Api.Url(cfg, Api.DestinationRatings(destinationId)), headers,
                             RatingPayload(rating, comment.GetOr("")));
      match Receive(x)
      case Err(e) => Call(Some(request), Err(e))
      case Ok(body) =>
        if !x.ok then Call(Some(request), Err(Thrown(SubmitErrorMessage(body.error))))
        else Call(Some(request), Ok(body.data))
  }

  /**
   * `submitRating` does no range check: whatever the rating value, the request is sent and
   * what comes back depends only on the server's answer.
   */
  lemma SubmitForwardsAnyRating(cfg: Api.Config, stored: StorageRead, destinationId: string,
                                r1: int, r2: int, comment: Option<string>, x: Exchange<Rating>)
    ensures SubmitRating(cfg, stored, destinationId, r1, comment, x).result
         == SubmitRating(cfg, stored, destinationId, r2, comment, x).result
    ensures stored.Stored? ==>
      SubmitRating(cfg, stored, destinationId, r1, comment, x).sent.value.payload == RatingPayload(r1, comment.GetOr(""))
  {
  }
}
