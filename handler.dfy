/**
  The `/getGameLikes` request handler. Its inputs are the optional
  `universeId` query parameter and the upstream games endpoint, given as a
  function from the URL requested to the outcome of that GET. Its result
  is the one response sent back together with the list of URLs it
  requested (empty, or a single GET: there is no retry and no cache).
*/
module LikesHandler {
  import opened Wrappers
  import opened Decimal
  import opened Responses
  import opened Upstream

  const BASE_URL: string := "https://games.roblox.com/v1/games"
  const QUERY_PREFIX: string := BASE_URL + "?universeIds="

  /** The upstream URL for an id, built from the parsed integer, not from the raw text. */
  function QueryUrl(id: int): (url: string)
    ensures |url| > |QUERY_PREFIX| && url[..|QUERY_PREFIX|] == QUERY_PREFIX
    ensures url[|QUERY_PREFIX|..] == IntToString(id)
    ensures ParseInt(url[|QUERY_PREFIX|..]) == Some(id)
  {
    var url := QUERY_PREFIX + IntToString(id);
    assert url[|QUERY_PREFIX|..] == IntToString(id);
    url
  }

  datatype Exchange = Exchange(response: Response, requested: seq<string>)

  /**
    `get_game_likes`: a missing or empty parameter is refused before
    anything else; otherwise `int()` runs while the URL is built, so an
    unparseable id is refused before the GET; otherwise exactly one GET is
    made and its outcome classified.
  */
  function GetGameLikes(universeId: Option<string>, fetch: string -> Outcome): (x: Exchange)
    ensures WellFormed(x.response)
    ensures x.response.status in {200, 400, 404, 500}
    ensures |x.requested| <= 1
    ensures x.requested == [] <==> x.response.status == 400
    ensures x.requested != [] ==> x.response == Classify(fetch(x.requested[0]))
  {
    if universeId.None? || universeId.value == "" then
      Exchange(Response(400, MissingUniverseId, None), [])
    else
      match ParseInt(universeId.value)
      case None => Exchange(Response(400, InvalidUniverseId, None), [])
      case Some(id) =>
        var url := QueryUrl(id);
        Exchange(Classify(fetch(url)), [url])
  }

  /** No parameter, or an empty one, is a 400 missing-parameter answer with no GET. */
  lemma MissingParameterNoRequest(universeId: Option<string>, fetch: string -> Outcome)
    requires universeId == None || universeId == Some("")
    ensures GetGameLikes(universeId, fetch) == Exchange(Response(400, MissingUniverseId, None), [])
  {
  }

  /** A non-empty id that `int()` rejects is a 400 invalid-id answer with no GET. */
  lemma InvalidIdNoRequest(s: string, fetch: string -> Outcome)
    requires s != "" && ParseInt(s) == None
    ensures GetGameLikes(Some(s), fetch) == Exchange(Response(400, InvalidUniverseId, None), [])
  {
  }

  /** A non-numeric id such as "abc" is refused without contacting upstream. */
  lemma NonNumericIdNoRequest(fetch: string -> Outcome)
    ensures GetGameLikes(Some("abc"), fetch) == Exchange(Response(400, InvalidUniverseId, None), [])
  {
    ParseIntRejectsStray("abc", 0);
  }

  /** An id that parses to n makes exactly the GET for n, and the answer is what that GET gives. */
  lemma ParsedIdRequest(s: string, n: int, fetch: string -> Outcome)
    requires ParseInt(s) == Some(n)
    ensures GetGameLikes(Some(s), fetch) == Exchange(Classify(fetch(QueryUrl(n))), [QueryUrl(n)])
  {
  }

  /** Every integer, negative ones included, is accepted and requested as written. */
  lemma EveryIntegerRequested(n: int, fetch: string -> Outcome)
    ensures GetGameLikes(Some(IntToString(n)), fetch).requested == [QueryUrl(n)]
  {
  }

  /** Two spellings of the same integer lead to the same GET and the same answer. */
  lemma SameIdSameExchange(a: string, b: string, fetch: string -> Outcome)
    requires ParseInt(a).Some? && ParseInt(a) == ParseInt(b)
    ensures GetGameLikes(Some(a), fetch) == GetGameLikes(Some(b), fetch)
  {
  }

  /** "0123" and "123" are the same request. */
  lemma LeadingZeroSameExchange(s: string, fetch: string -> Outcome)
    requires |s| > 0 && AllDigits(s)
    ensures GetGameLikes(Some("0" + s), fetch) == GetGameLikes(Some(s), fetch)
  {
    LeadingZeroParse(s);
  }

  /** Distinct ids are requested with distinct URLs. */
  lemma {:induction false} QueryUrlInjective(a: int, b: int)
    requires QueryUrl(a) == QueryUrl(b)
    ensures a == b
  {
    var tail := QueryUrl(a)[|QUERY_PREFIX|..];
    assert Some(a) == ParseInt(tail) == Some(b);
  }

  /** The answer depends on the upstream only at the URLs actually requested. */
  lemma OnlyRequestedUrlsMatter(universeId: Option<string>, f: string -> Outcome, g: string -> Outcome)
    requires forall url :: url in GetGameLikes(universeId, f).requested ==> f(url) == g(url)
    ensures GetGameLikes(universeId, f) == GetGameLikes(universeId, g)
  {
  }

  /** A 200 with n exactly when the id parses and its GET returns a body whose first record counts n. */
  lemma LikesExactly(universeId: Option<string>, fetch: string -> Outcome, n: int)
    ensures GetGameLikes(universeId, fetch).response == Response(200, Likes, Some(n)) <==>
      (universeId.Some? && ParseInt(universeId.value).Some? &&
       var o := fetch(QueryUrl(ParseInt(universeId.value).value));
       o.Body? && o.payload.Object? && o.payload.data.Some? && |o.payload.data.value| > 0 &&
       o.payload.data.value[0].favoritedCount == Number(n))
  {
    if universeId.Some? && ParseInt(universeId.value).Some? {
      var o := fetch(QueryUrl(ParseInt(universeId.value).value));
      if o.Body? {
        ExtractLikes(o.payload, n);
      }
    }
  }

  /** universeId=1818 with upstream data [{"favoritedCount": 4200}] answers 200 with 4200 likes. */
  lemma Scenario1818(fetch: string -> Outcome)
    requires fetch("https://games.roblox.com/v1/games?universeIds=1818") ==
      Body(Object(Some([Record(Number(4200))])))
    ensures GetGameLikes(Some("1818"), fetch) ==
      Exchange(Response(200, Likes, Some(4200)), ["https://games.roblox.com/v1/games?universeIds=1818"])
  {
    Url1818();
    ParsedIdRequest("1818", 1818, fetch);
  }

  lemma Url1818()
    ensures ParseInt("1818") == Some(1818)
    ensures QueryUrl(1818) == "https://games.roblox.com/v1/games?universeIds=1818"
  {
    Digits1818();
    assert NatToDigits(1818) == "1818" by {
      assert NatToDigits(1) == "1" by { assert DigitChar(1) == '1'; }
      assert NatToDigits(18) == "18" by { assert DigitChar(8) == '8'; }
      assert NatToDigits(181) == "181" by { assert DigitChar(1) == '1'; }
      assert DigitChar(8) == '8';
    }
  }

  lemma Digits1818()
    ensures AllDigits("1818") && DigitsValue("1818") == 1818
  {
    DigitsValueAppend("", '1');
    assert [] + ['1'] == "1";
    DigitsValueAppend("1", '8');
    assert "1" + ['8'] == "18";
    DigitsValueAppend("18", '1');
    assert "18" + ['1'] == "181";
    DigitsValueAppend("181", '8');
    assert "181" + ['8'] == "1818";
  }

  /** An upstream `{"data": []}` answers 404. */
  lemma ScenarioEmptyData(s: string, fetch: string -> Outcome)
    requires ParseInt(s).Some?
    requires fetch(QueryUrl(ParseInt(s).value)) == Body(Object(Some([])))
    ensures GetGameLikes(Some(s), fetch).response == Response(404, GameNotFound, None)
  {
  }

  /** A failed connection or an error status from upstream answers 500 failed-to-connect. */
  lemma UpstreamFailureAnswers500(s: string, fetch: string -> Outcome)
    requires ParseInt(s).Some?
    requires fetch(QueryUrl(ParseInt(s).value)).NetworkError? || fetch(QueryUrl(ParseInt(s).value)).HttpError?
    ensures GetGameLikes(Some(s), fetch).response == Response(500, FailedToConnect, None)
  {
  }
}
