/**
  The handler's answers: an HTTP status, a tag for which JSON body the
  handler sends, and the `likes` value on success. The tags stand for the
  body texts of the source; the text itself is not modelled.
*/
module Responses {
  import opened Wrappers

  datatype Kind =
    | Likes                   // {"likes": favoritedCount}
    | MissingUniverseId       // "Missing 'universeId' query parameter."
    | InvalidUniverseId       // "Invalid 'universeId' provided. Must be a number."
    | FailedToConnect         // "Failed to connect to Roblox API: ..."
    | GameNotFound            // "Game information not found or invalid response ..."
    | FavoritedCountNotFound  // "favoritedCount not found in Roblox API response ..."
    | InternalServerError     // "An internal server error occurred: ..."

  datatype Response = Response(status: int, kind: Kind, likes: Option<int>)

  /** The error taxonomy: which HTTP status belongs to which kind of answer. */
  function StatusOf(k: Kind): (r: int)
    ensures r in {200, 400, 404, 500}
    ensures r == 200 <==> k == Likes
  {
    match k
    case Likes => 200
    case MissingUniverseId => 400
    case InvalidUniverseId => 400
    case GameNotFound => 404
    case FailedToConnect => 500
    case FavoritedCountNotFound => 500
    case InternalServerError => 500
  }

  /** A response agrees with the taxonomy, and carries a count exactly when it is a success. */
  predicate WellFormed(r: Response) {
    r.status == StatusOf(r.kind) && (r.likes.Some? <==> r.kind == Likes)
  }

}
