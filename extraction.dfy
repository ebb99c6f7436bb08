/**
 * The body of the extraction script (lines 199-410) with its I/O replaced by
 * parameters: the two single-page tweet responses are given as data, the
 * interaction and follow endpoints as functions. An exception raised while
 * flattening ends the script, so the result is either all five row sets or
 * the first error.
 */
module Extraction {
  import opened Wrappers
  import opened Records
  import opened Lists
  import opened Interactions
  import opened Follows

  /** The five row sets the script loads into its five tables. */
  datatype Tables = Tables(
    pastTweets: seq<Row>,
    tweetInteractingUsers: seq<Row>,
    accountInteractions: seq<Row>,
    followingUsers: seq<Row>,
    followedUsers: seq<Row>)

  /** Every flattened past tweet has the past-tweet columns, `tweet_id` among them. */
  lemma PastTweetRowsHaveColumns(data: seq<RawTweet>)
    ensures forall r :: r in FlattenAll(data, FlattenPastTweet).rows ==> r.Keys == PastTweetColumns
  {
    var rows := FlattenAll(data, FlattenPastTweet).rows;
    forall r | r in rows ensures r.Keys == PastTweetColumns {
      var j :| 0 <= j < |rows| && rows[j] == r;
      assert FlattenPastTweet(data[j]) == Success(r);
    }
  }

  /** The rows the three interaction passes append when they walk the given
      past-tweet rows: the like, quote and retweet rows, in that order. */
  function PassRows(pastRows: seq<Row>, api: InteractionRequest -> Response): seq<Row>
    requires forall r :: r in pastRows ==> r.Keys == PastTweetColumns
  {
    var s := Seeds(pastRows);
    InteractionRows(s, LikeLabel, LikeEndpoint, api)
    + InteractionRows(s, QuoteLabel, QuoteEndpoint, api)
    + InteractionRows(s, RetweetLabel, RetweetEndpoint, api)
  }

  /** The requests the three passes send when they walk the given past-tweet
      rows: one per row for likes, then quotes, then retweets. */
  function PassRequests(pastRows: seq<Row>): seq<InteractionRequest>
    requires forall r :: r in pastRows ==> r.Keys == PastTweetColumns
  {
    var s := Seeds(pastRows);
    Requests(s, LikeEndpoint) + Requests(s, QuoteEndpoint) + Requests(s, RetweetEndpoint)
  }

  /** The interaction table the script builds from its raw past tweets. */
  function InteractionTable(pastTweetData: seq<RawTweet>, api: InteractionRequest -> Response): seq<Row>
  {
    PastTweetRowsHaveColumns(pastTweetData);
    PassRows(FlattenAll(pastTweetData, FlattenPastTweet).rows, api)
  }

  /** The interaction requests the script sends for its raw past tweets. */
  function InteractionRequests(pastTweetData: seq<RawTweet>): seq<InteractionRequest>
  {
    PastTweetRowsHaveColumns(pastTweetData);
    PassRequests(FlattenAll(pastTweetData, FlattenPastTweet).rows)
  }

  /** The request for one of the account's follow lists. */
  function FollowsRequestFor(targetUserId: string, endpoint: string): FollowsRequest
  {
    FollowsRequest(targetUserId, endpoint, FollowsMaxResults)
  }

  /** Every request a pass over past-tweet rows sends asks for a first page of
      its endpoint, for the tweet of one of the rows. */
  lemma SeedRequestsAreFirstPages(rows: seq<Row>, endpoint: string)
    requires forall r :: r in rows ==> r.Keys == PastTweetColumns
    ensures forall q :: q in Requests(Seeds(rows), endpoint) ==>
      q.paginationToken.None? && q.endpoint == endpoint
      && exists r :: r in rows && q.tweetId == PyStr(r["tweet_id"])
  {
    var qs := Requests(Seeds(rows), endpoint);
    FirstPagesOnly(rows, LikeLabel, endpoint, q => Response([], None));
    forall q | q in qs
      ensures q.paginationToken.None? && q.endpoint == endpoint
              && exists r :: r in rows && q.tweetId == PyStr(r["tweet_id"])
    {
      var j :| 0 <= j < |qs| && qs[j] == q;
      assert rows[j] in rows;
    }
  }

  /** Lines 316-318 run on the flattened past tweets. The list they walk is
      the past-tweet table itself; since its rows carry neither a
      `pagination_token` nor a `meta`, it comes back unchanged, and every pass
      sends one first-page request per row. */
  method InteractionPasses(pastRows: seq<Row>, api: InteractionRequest -> Response)
    returns (walked: seq<WorkItem>, table: seq<Row>, requests: seq<InteractionRequest>)
    requires forall r :: r in pastRows ==> r.Keys == PastTweetColumns
    ensures walked == Seeds(pastRows)
    ensures table == PassRows(pastRows, api)
    ensures requests == PassRequests(pastRows)
    ensures |requests| == 3 * |pastRows|
    ensures forall q :: q in requests ==> q.paginationToken.None?
  {
    ghost var s := Seeds(pastRows);
    var tweetData := new MutableList<WorkItem>(Seeds(pastRows));
    var acc := new MutableList<Row>([]);
    requests := CollectInteractions(tweetData, api, acc);
    ThreePassesOnSeeds(pastRows, api);
    FirstPagesOnly(pastRows, LikeLabel, LikeEndpoint, api);
    AppendEmpty(s);
    assert s + Enqueued(s) == s;
    AppendEmpty(InteractionRows(s, LikeLabel, LikeEndpoint, api));
    AppendAssoc([], InteractionRows(s, LikeLabel, LikeEndpoint, api), InteractionRows(s, QuoteLabel, QuoteEndpoint, api));
    SeedRequestsAreFirstPages(pastRows, LikeEndpoint);
    SeedRequestsAreFirstPages(pastRows, QuoteEndpoint);
    SeedRequestsAreFirstPages(pastRows, RetweetEndpoint);
    walked, table := tweetData.elems, acc.elems;
  }

  /** Lines 409-410: the following list, then the followers list, one request
      each; an error flattening the first list means the second is never
      requested. */
  method FollowLists(targetUserId: string, followsApi: FollowsRequest -> Response)
    returns (result: Result<(seq<Row>, seq<Row>), FlattenError>, requests: seq<FollowsRequest>)
    ensures var fg := FlattenAll(followsApi(FollowsRequestFor(targetUserId, FollowingEndpoint)).data, FlattenFollow);
            var fr := FlattenAll(followsApi(FollowsRequestFor(targetUserId, FollowersEndpoint)).data, FlattenFollow);
            && result == (if fg.failure.Some? then Failure(fg.failure.value)
                          else if fr.failure.Some? then Failure(fr.failure.value)
                          else Success((fg.rows, fr.rows)))
            && requests == if fg.failure.Some? then [FollowsRequestFor(targetUserId, FollowingEndpoint)]
                           else [FollowsRequestFor(targetUserId, FollowingEndpoint),
                                 FollowsRequestFor(targetUserId, FollowersEndpoint)]
  {
    var flatFollowingUsers := new MutableList<Row>([]);
    var flatFollowedUsers := new MutableList<Row>([]);
    var following, failure := GetFollowsData(flatFollowingUsers, FollowingEndpoint, targetUserId, followsApi);
    AppendEmpty(FlattenAll(followsApi(following[0]).data, FlattenFollow).rows);
    requests := following;
    if failure.Some? {
      return Failure(failure.value), requests;
    }
    var followers;
    followers, failure := GetFollowsData(flatFollowedUsers, FollowersEndpoint, targetUserId, followsApi);
    AppendEmpty(FlattenAll(followsApi(followers[0]).data, FlattenFollow).rows);
    requests := requests + followers;
    if failure.Some? {
      return Failure(failure.value), requests;
    }
    result := Success((flatFollowingUsers.elems, flatFollowedUsers.elems));
  }

  /** The script from the flattening of the past tweets to the follow lists:
      the five row sets, or the error of the first record that does not
      flatten. Each follow list costs exactly one request, and each past
      tweet exactly one first-page request per interaction type. */
  method RunExtraction(targetUserId: string, pastTweetData: seq<RawTweet>, likedTweetData: seq<RawTweet>,
                       interactionApi: InteractionRequest -> Response, followsApi: FollowsRequest -> Response)
    returns (result: Result<Tables, FlattenError>,
             interactionRequests: seq<InteractionRequest>, followsRequests: seq<FollowsRequest>)
    ensures var p := FlattenAll(pastTweetData, FlattenPastTweet);
            var l := FlattenAll(likedTweetData, FlattenLikedTweet);
            var fg := FlattenAll(followsApi(FollowsRequestFor(targetUserId, FollowingEndpoint)).data, FlattenFollow);
            var fr := FlattenAll(followsApi(FollowsRequestFor(targetUserId, FollowersEndpoint)).data, FlattenFollow);
            result == if p.failure.Some? then Failure(p.failure.value)
                      else if l.failure.Some? then Failure(l.failure.value)
                      else if fg.failure.Some? then Failure(fg.failure.value)
                      else if fr.failure.Some? then Failure(fr.failure.value)
                      else Success(Tables(p.rows, InteractionTable(pastTweetData, interactionApi),
                                          l.rows, fg.rows, fr.rows))
    ensures var p := FlattenAll(pastTweetData, FlattenPastTweet);
            interactionRequests == if p.failure.Some? then [] else InteractionRequests(pastTweetData)
    ensures var p := FlattenAll(pastTweetData, FlattenPastTweet);
            var l := FlattenAll(likedTweetData, FlattenLikedTweet);
            var fg := FlattenAll(followsApi(FollowsRequestFor(targetUserId, FollowingEndpoint)).data, FlattenFollow);
            followsRequests == if p.failure.Some? || l.failure.Some? then []
                               else if fg.failure.Some? then [FollowsRequestFor(targetUserId, FollowingEndpoint)]
                               else [FollowsRequestFor(targetUserId, FollowingEndpoint),
                                     FollowsRequestFor(targetUserId, FollowersEndpoint)]
    ensures result.Success? ==>
      && |result.value.pastTweets| == |pastTweetData|
      && |result.value.accountInteractions| == |likedTweetData|
      && |interactionRequests| == 3 * |pastTweetData|
      && (forall q :: q in interactionRequests ==> q.paginationToken.None?)
      && followsRequests == [FollowsRequestFor(targetUserId, FollowingEndpoint),
                             FollowsRequestFor(targetUserId, FollowersEndpoint)]
  {
    interactionRequests, followsRequests := [], [];
    var flatPastTweets := new MutableList<Row>([]);
    var failure := AppendEach(flatPastTweets, pastTweetData, FlattenPastTweet);
    if failure.Some? {
      return Failure(failure.value), interactionRequests, followsRequests;
    }
    AppendEmpty(FlattenAll(pastTweetData, FlattenPastTweet).rows);
    PastTweetRowsHaveColumns(pastTweetData);
    var interactions;
    var walked;
    walked, interactions, interactionRequests := InteractionPasses(flatPastTweets.elems, interactionApi);

    var flatAccountInteractions := new MutableList<Row>([]);
    failure := AppendEach(flatAccountInteractions, likedTweetData, FlattenLikedTweet);
    AppendEmpty(FlattenAll(likedTweetData, FlattenLikedTweet).rows);
    if failure.Some? {
      return Failure(failure.value), interactionRequests, followsRequests;
    }

    var follows;
    follows, followsRequests := FollowLists(targetUserId, followsApi);
    if follows.Failure? {
      return Failure(follows.error), interactionRequests, followsRequests;
    }
    result := Success(Tables(flatPastTweets.elems, interactions, flatAccountInteractions.elems,
                             follows.value.0, follows.value.1));
  }
}
