/**
  What one GET to the games endpoint can come back with, and how the handler
  turns that outcome into a response (the part of `get_game_likes` after
  `requests.get`).
*/
module Upstream {
  import opened Wrappers
  import opened Responses

  /** A record's `favoritedCount` entry: no such key, JSON null, or a number. */
  datatype Count = Absent | Null | Number(n: int)

  /** One element of the `data` list; only `favoritedCount` is ever read. */
  datatype Record = Record(favoritedCount: Count)

  /**
    The decoded JSON body. `Falsy` is a top-level value Python treats as
    false (`null`, `false`, `0`, `""`, `[]`); `Object` is a JSON object, with
    its `data` list when it has that key (an empty object has no keys).
  */
  datatype Payload = Falsy | Object(data: Option<seq<Record>>)

  /**
    The outcome of the GET: a connection-level failure (ConnectionError,
    Timeout and the like), an error status (`raise_for_status` raised HTTPError),
    a decoded body, or a body whose shape makes the extraction raise
    something other than ValueError or RequestException (a `data` that is
    not a list, a first record that is not an object, ...).
  */
  datatype Outcome = NetworkError | HttpError | Body(payload: Payload) | UnexpectedShape

  /** Extraction of the count from a decoded body. */
  function Extract(p: Payload): (r: Response)
    ensures WellFormed(r)
    ensures r.status in {200, 404, 500}
    ensures r.status == 404 <==> (p.Falsy? || p.data == None || p.data == Some([]))
  {
    match p
    case Falsy => Response(404, GameNotFound, None)
    case Object(None) => Response(404, GameNotFound, None)
    case Object(Some(records)) =>
      if |records| == 0 then Response(404, GameNotFound, None)
      else
        match records[0].favoritedCount
        case Number(n) => Response(200, Likes, Some(n))
        case _ => Response(500, FavoritedCountNotFound, None)
  }

  /** Classification of everything that can follow the GET. */
  function Classify(o: Outcome): (r: Response)
    ensures WellFormed(r)
    ensures r.status != 400
    ensures (o.NetworkError? || o.HttpError?) <==> r.kind == FailedToConnect
    ensures o.Body? ==> r == Extract(o.payload)
    ensures o.UnexpectedShape? ==> r == Response(500, InternalServerError, None)
  {
    match o
    case NetworkError => Response(500, FailedToConnect, None)
    case HttpError => Response(500, FailedToConnect, None)
    case UnexpectedShape => Response(500, InternalServerError, None)
    case Body(p) => Extract(p)
  }

  /** A body answers 200 with n exactly when its first record's count is the number n. */
  lemma ExtractLikes(p: Payload, n: int)
    ensures Extract(p) == Response(200, Likes, Some(n)) <==>
      (p.Object? && p.data.Some? && |p.data.value| > 0 && p.data.value[0].favoritedCount == Number(n))
  {
  }

  /** Only the first record is read: records after it have no effect on the answer. */
  lemma ExtractFirstRecordOnly(a: seq<Record>, b: seq<Record>)
    requires |a| > 0 && |b| > 0 && a[0] == b[0]
    ensures Extract(Object(Some(a))) == Extract(Object(Some(b)))
  {
  }

  /** A first record whose count is absent or null yields the missing-field error. */
  lemma ExtractFieldMissing(records: seq<Record>)
    requires |records| > 0 && (records[0].favoritedCount.Absent? || records[0].favoritedCount.Null?)
    ensures Extract(Object(Some(records))) == Response(500, FavoritedCountNotFound, None)
  {
  }

  /** A count of zero is still a success: the check is `is not None`, not truthiness. */
  lemma ExtractZeroIsFound(rest: seq<Record>)
    ensures Extract(Object(Some([Record(Number(0))] + rest))) == Response(200, Likes, Some(0))
  {
  }

  /** Connection failures and error statuses give the same failed-to-connect answer. */
  lemma ClassifyUpstreamFailure(o: Outcome)
    requires o.NetworkError? || o.HttpError?
    ensures Classify(o) == Response(500, FailedToConnect, None)
  {
  }
}
