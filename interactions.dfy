/**
 * The collection of users who liked, quoted or retweeted the account's
 * tweets. `get_tweet_interacting_users` walks its input list with a `for`
 * loop while appending pagination items to that same list, and
 * `flatten_user_interaction` appends one row per returned user to a list
 * shared by all calls. Both lists are `MutableList`s here; the API is a
 * function from request to response.
 */
module Interactions {
  import opened Wrappers
  import opened Records
  import opened Lists

  /** What the loop reads from one element of the list it walks:
      `tweetId` is `str(item['tweet_id'])`, `paginationToken` the value under
      `'pagination_token'` (`None` when the key is absent) and `metaNextToken`
      is `item.get('meta', {}).get('next_token')`. */
  datatype WorkItem = WorkItem(tweetId: string, paginationToken: Option<string>, metaNextToken: Option<string>)

  /** One GET of `tweets/<tweetId>/<endpoint>`, carrying `pagination_token` when one is given. */
  datatype InteractionRequest = InteractionRequest(tweetId: string, endpoint: string, paginationToken: Option<string>)

  /** The labels and endpoints of the three collection passes, in the order they run. */
  const LikeLabel: string := "like tweet"
  const LikeEndpoint: string := "liking_users"
  const QuoteLabel: string := "quote tweet"
  const QuoteEndpoint: string := "quote_tweets"
  const RetweetLabel: string := "retweet"
  const RetweetEndpoint: string := "retweeted_by"

  /** The request the loop sends for `item`: a first-page request for an item
      without a pagination token, otherwise a follow-up carrying that token. */
  function RequestFor(item: WorkItem, endpoint: string): InteractionRequest
  {
    InteractionRequest(item.tweetId, endpoint, item.paginationToken)
  }

  /** What visiting `item` appends to the list being walked: a pagination item
      for the same tweet when the item has no pagination token of its own and
      its own `meta.next_token` is not `None`; nothing otherwise. */
  function Spawned(item: WorkItem): seq<WorkItem>
  {
    if item.paginationToken.None? && item.metaNextToken.Some?
    then [WorkItem(item.tweetId, item.metaNextToken, None)]
    else []
  }

  /** Everything appended to the list while its items `items` are visited, in order. */
  function Enqueued(items: seq<WorkItem>): seq<WorkItem>
  {
    if items == [] then []
    else Enqueued(items[..|items| - 1]) + Spawned(items[|items| - 1])
  }

  /** The rows `flatten_user_interaction` builds for `users`. */
  function TagUsers(users: seq<RawUser>, interactionType: string, originTweetId: string): seq<Row>
  {
    MapSeq(Tagger(interactionType, originTweetId), users)
  }

  /** The row builder of `flatten_user_interaction` for one origin tweet and type. */
  function Tagger(interactionType: string, originTweetId: string): RawUser -> Row
  {
    u => InteractionRow(u, interactionType, originTweetId)
  }

  /** The rows appended when `item` is visited. */
  function ItemRows(item: WorkItem, interactionType: string, endpoint: string,
                    api: InteractionRequest -> Response): seq<Row>
  {
    TagUsers(api(RequestFor(item, endpoint)).data, interactionType, item.tweetId)
  }

  /** The rows appended when `items` are visited in order. */
  function InteractionRows(items: seq<WorkItem>, interactionType: string, endpoint: string,
                           api: InteractionRequest -> Response): seq<Row>
  {
    if items == [] then []
    else InteractionRows(items[..|items| - 1], interactionType, endpoint, api)
         + ItemRows(items[|items| - 1], interactionType, endpoint, api)
  }

  /** The requests sent when `items` are visited in order. */
  function Requests(items: seq<WorkItem>, endpoint: string): seq<InteractionRequest>
  {
    if items == [] then []
    else Requests(items[..|items| - 1], endpoint) + [RequestFor(items[|items| - 1], endpoint)]
  }

  /** One request per item, request `j` being the one for item `j`. */
  lemma {:induction false} RequestsAt(items: seq<WorkItem>, endpoint: string)
    ensures |Requests(items, endpoint)| == |items|
    ensures forall j :: 0 <= j < |items| ==> Requests(items, endpoint)[j] == RequestFor(items[j], endpoint)
  {
    if items != [] {
      var init := items[..|items| - 1];
      RequestsAt(init, endpoint);
      forall j | 0 <= j < |init| ensures items[j] == init[j] {
      }
    }
  }

  /** The number of users the API returns for the requests of `items`. */
  function PageSizes(items: seq<WorkItem>, endpoint: string, api: InteractionRequest -> Response): nat
  {
    if items == [] then 0
    else PageSizes(items[..|items| - 1], endpoint, api) + |api(RequestFor(items[|items| - 1], endpoint)).data|
  }

  /** `flatten_user_interaction`: appends one row per user, in order, tagged
      with the originating tweet and the interaction type. */
  method FlattenUserInteraction(acc: MutableList<Row>, users: seq<RawUser>,
                                interactionType: string, originTweetId: string)
    modifies acc
    ensures acc.elems == old(acc.elems) + TagUsers(users, interactionType, originTweetId)
  {
    for j := 0 to |users|
      invariant acc.elems == old(acc.elems) + TagUsers(users[..j], interactionType, originTweetId)
    {
      assert users[..j + 1][..j] == users[..j];
      ghost var tagged := TagUsers(users[..j], interactionType, originTweetId);
      var row := InteractionRow(users[j], interactionType, originTweetId);
      acc.Append(row);
      assert TagUsers(users[..j + 1], interactionType, originTweetId) == tagged + [row];
      AppendAssoc(old(acc.elems), tagged, [row]);
    }
    assert users[..|users|] == users;
  }

  /** `get_tweet_interacting_users`: visits every element of `tweetData`,
      including the pagination items it appends to `tweetData` on the way.
      Afterwards `tweetData` holds its old items followed by `Enqueued` of
      them, one request was sent per item of that list, and the rows of
      every response were appended to `acc` in visiting order. */
  method GetTweetInteractingUsers(tweetData: MutableList<WorkItem>, interactionType: string,
                                  endpoint: string, api: InteractionRequest -> Response,
                                  acc: MutableList<Row>)
    returns (requests: seq<InteractionRequest>)
    modifies tweetData, acc
    ensures tweetData.elems == old(tweetData.elems) + Enqueued(old(tweetData.elems))
    ensures acc.elems == old(acc.elems) + InteractionRows(tweetData.elems, interactionType, endpoint, api)
    ensures requests == Requests(tweetData.elems, endpoint)
  {
    ghost var orig := tweetData.elems;
    ghost var accStart := acc.elems;
    requests := [];
    var i := 0;
    while i < |tweetData.elems|
      invariant i <= |tweetData.elems|
      invariant tweetData.elems == Walked(orig, i)
      invariant acc.elems == accStart + InteractionRows(tweetData.elems[..i], interactionType, endpoint, api)
      invariant requests == Requests(tweetData.elems[..i], endpoint)
      decreases 2 * |orig| - i
    {
      ghost var before := tweetData.elems;
      ghost var accBefore := acc.elems;
      ghost var rowsBefore := InteractionRows(before[..i], interactionType, endpoint, api);
      assert accBefore == accStart + rowsBefore;
      WalkStep(orig, i);
      var item := tweetData.elems[i];
      var request := VisitItem(tweetData, item, interactionType, endpoint, api, acc);
      ghost var itemRows := ItemRows(item, interactionType, endpoint, api);
      assert acc.elems == accBefore + itemRows;
      VisitStep(before, tweetData.elems, i, interactionType, endpoint, api);
      assert InteractionRows(tweetData.elems[..i + 1], interactionType, endpoint, api) == rowsBefore + itemRows;
      AppendAssoc(accStart, rowsBefore, itemRows);
      requests := requests + [request];
      i := i + 1;
    }
    assert orig[..|orig|] == orig;
    assert tweetData.elems[..i] == tweetData.elems;
  }

  /** One pass of the loop body for `item`: an item without a pagination token
      fetches the first page and, if its own `meta.next_token` is set, appends
      a pagination item to `tweetData`; an item with a token fetches the page
      for that token and appends nothing. Either way the users returned are
      flattened into `acc`. */
  method VisitItem(tweetData: MutableList<WorkItem>, item: WorkItem, interactionType: string,
                   endpoint: string, api: InteractionRequest -> Response, acc: MutableList<Row>)
    returns (request: InteractionRequest)
    modifies tweetData, acc
    ensures request == RequestFor(item, endpoint)
    ensures tweetData.elems == old(tweetData.elems) + Spawned(item)
    ensures acc.elems == old(acc.elems) + ItemRows(item, interactionType, endpoint, api)
  {
    if item.paginationToken.None? {
      request := InteractionRequest(item.tweetId, endpoint, None);
      var response := api(request);
      FlattenUserInteraction(acc, response.data, interactionType, item.tweetId);
      if item.metaNextToken.Some? {
        tweetData.Extend([WorkItem(item.tweetId, Some(item.metaNextToken.value), None)]);
      }
    } else {
      request := InteractionRequest(item.tweetId, endpoint, Some(item.paginationToken.value));
      var response := api(request);
      FlattenUserInteraction(acc, response.data, interactionType, item.tweetId);
    }
  }

  /** The list after its first `i` items have been visited. */
  ghost function Walked(orig: seq<WorkItem>, i: nat): seq<WorkItem>
  {
    orig + Enqueued(orig[..if i < |orig| then i else |orig|])
  }

  /** Visiting item `i` extends the list by what that item spawns; past the
      original items the list is only ever extended by nothing, since what is
      visited there are pagination items. The list never exceeds twice its
      original length. */
  lemma WalkStep(orig: seq<WorkItem>, i: nat)
    requires i < |Walked(orig, i)|
    ensures Walked(orig, i + 1) == Walked(orig, i) + Spawned(Walked(orig, i)[i])
    ensures |Walked(orig, i + 1)| <= 2 * |orig|
  {
    if i < |orig| {
      assert orig[..i + 1][..i] == orig[..i];
      assert Walked(orig, i)[i] == orig[i];
      EnqueuedBound(orig[..i + 1]);
    } else {
      assert orig[..|orig|] == orig;
      EnqueuedAreCursors(orig);
      assert Walked(orig, i)[i] == Enqueued(orig)[i - |orig|];
      assert Walked(orig, i)[i] in Enqueued(orig);
      EnqueuedBound(orig);
    }
  }

  /** Visiting item `i` of `before` appends that item's rows and request; the
      items the visit appends to the list lie beyond `i` and do not matter yet. */
  lemma VisitStep(before: seq<WorkItem>, after: seq<WorkItem>, i: nat, interactionType: string,
                  endpoint: string, api: InteractionRequest -> Response)
    requires i < |before| && before <= after
    ensures InteractionRows(after[..i + 1], interactionType, endpoint, api)
         == InteractionRows(before[..i], interactionType, endpoint, api)
            + ItemRows(before[i], interactionType, endpoint, api)
    ensures Requests(after[..i + 1], endpoint) == Requests(before[..i], endpoint) + [RequestFor(before[i], endpoint)]
  {
    var prefix := before[..i + 1];
    assert after[..i + 1] == prefix;
    assert prefix[..|prefix| - 1] == before[..i];
    assert prefix[|prefix| - 1] == before[i];
  }

  /** Each item spawns at most one pagination item, so the list at most doubles. */
  lemma {:induction false} EnqueuedBound(items: seq<WorkItem>)
    ensures |Enqueued(items)| <= |items|
  {
    if items != [] {
      EnqueuedBound(items[..|items| - 1]);
    }
  }

  /** Every appended item is a pagination item for a tweet already in the list,
      carrying as its token the `meta.next_token` of an item without a token. */
  lemma {:induction false} EnqueuedAreCursors(items: seq<WorkItem>)
    ensures forall x :: x in Enqueued(items) ==> x.paginationToken.Some? && x.metaNextToken.None?
    ensures forall x :: x in Enqueued(items) ==>
      exists y :: y in items && y.paginationToken.None? && y.metaNextToken == x.paginationToken
                  && y.tweetId == x.tweetId
  {
    if items != [] {
      var init := items[..|items| - 1];
      EnqueuedAreCursors(init);
      assert forall y :: y in init ==> y in items;
      var last := items[|items| - 1];
      assert Enqueued(items) == Enqueued(init) + Spawned(last);
      assert last in items;
    }
  }

  /** `TagUsers` yields one row per user, in order, each built from that user. */
  lemma TagUsersRows(users: seq<RawUser>, interactionType: string, originTweetId: string)
    ensures |TagUsers(users, interactionType, originTweetId)| == |users|
    ensures forall j :: 0 <= j < |users| ==>
      TagUsers(users, interactionType, originTweetId)[j] == InteractionRow(users[j], interactionType, originTweetId)
  {
    MapSeqAt(Tagger(interactionType, originTweetId), users);
  }

  /** Visiting two runs of items one after the other enqueues what each run enqueues. */
  lemma {:induction false} EnqueuedAppend(a: seq<WorkItem>, b: seq<WorkItem>)
    ensures Enqueued(a + b) == Enqueued(a) + Enqueued(b)
    decreases |b|
  {
    if b == [] {
      assert a + b == a;
    } else {
      var init := b[..|b| - 1];
      assert (a + b)[..|a + b| - 1] == a + init;
      EnqueuedAppend(a, init);
      AppendAssoc(Enqueued(a), Enqueued(init), Spawned(b[|b| - 1]));
    }
  }

  /** Pagination items never enqueue anything. */
  lemma {:induction false} CursorsEnqueueNothing(items: seq<WorkItem>)
    requires forall x :: x in items ==> x.paginationToken.Some?
    ensures Enqueued(items) == []
  {
    if items != [] {
      var init := items[..|items| - 1];
      assert forall x :: x in init ==> x in items;
      CursorsEnqueueNothing(init);
      assert items[|items| - 1] in items;
    }
  }

  /** Visiting the list a second time enqueues the same pagination items again
      and nothing more: what was appended the first time appends nothing. */
  lemma RevisitEnqueuesAgain(items: seq<WorkItem>)
    ensures Enqueued(Enqueued(items)) == []
    ensures Enqueued(items + Enqueued(items)) == Enqueued(items)
  {
    EnqueuedAreCursors(items);
    CursorsEnqueueNothing(Enqueued(items));
    EnqueuedAppend(items, Enqueued(items));
  }

  /** Visiting two runs of items one after the other appends the rows of each run. */
  lemma {:induction false} InteractionRowsAppend(a: seq<WorkItem>, b: seq<WorkItem>, interactionType: string,
                                                 endpoint: string, api: InteractionRequest -> Response)
    ensures InteractionRows(a + b, interactionType, endpoint, api)
         == InteractionRows(a, interactionType, endpoint, api) + InteractionRows(b, interactionType, endpoint, api)
    decreases |b|
  {
    if b == [] {
      assert a + b == a;
    } else {
      var init := b[..|b| - 1];
      assert (a + b)[..|a + b| - 1] == a + init;
      InteractionRowsAppend(a, init, interactionType, endpoint, api);
      AppendAssoc(InteractionRows(a, interactionType, endpoint, api),
                  InteractionRows(init, interactionType, endpoint, api),
                  ItemRows(b[|b| - 1], interactionType, endpoint, api));
    }
  }

  /** The tweet-id cells of the rows built for `items`. */
  function OriginCells(items: seq<WorkItem>): set<Cell>
  {
    set x | x in items :: Str(x.tweetId)
  }

  /** Exactly one row per user returned, each with the interaction columns,
      labelled with the pass's interaction type and tagged with the id of the
      tweet whose request returned it. */
  lemma {:induction false} InteractionRowsShape(items: seq<WorkItem>, interactionType: string,
                                                endpoint: string, api: InteractionRequest -> Response)
    ensures |InteractionRows(items, interactionType, endpoint, api)| == PageSizes(items, endpoint, api)
    ensures forall r :: r in InteractionRows(items, interactionType, endpoint, api) ==>
      r.Keys == InteractionColumns && r["interaction_type"] == Str(interactionType)
      && r["tweet_id"] in OriginCells(items)
  {
    if items != [] {
      var init := items[..|items| - 1];
      var last := items[|items| - 1];
      InteractionRowsShape(init, interactionType, endpoint, api);
      var users := api(RequestFor(last, endpoint)).data;
      TagUsersRows(users, interactionType, last.tweetId);
      assert OriginCells(init) <= OriginCells(items) by {
        forall x | x in init ensures Str(x.tweetId) in OriginCells(items) {
          assert x in items;
        }
      }
      assert last in items;
      forall r | r in ItemRows(last, interactionType, endpoint, api)
        ensures r.Keys == InteractionColumns && r["interaction_type"] == Str(interactionType)
                && r["tweet_id"] in OriginCells(items)
      {
        var j :| 0 <= j < |users| && TagUsers(users, interactionType, last.tweetId)[j] == r;
        assert r == InteractionRow(users[j], interactionType, last.tweetId);
      }
    }
  }

  /** The loop never looks at a response's own `meta.next_token`: two APIs that
      return the same users for every request yield the same rows. */
  lemma {:induction false} ResponseCursorIgnored(items: seq<WorkItem>, interactionType: string, endpoint: string,
                                                 api1: InteractionRequest -> Response,
                                                 api2: InteractionRequest -> Response)
    requires forall q :: api1(q).data == api2(q).data
    ensures InteractionRows(items, interactionType, endpoint, api1)
         == InteractionRows(items, interactionType, endpoint, api2)
  {
    if items != [] {
      ResponseCursorIgnored(items[..|items| - 1], interactionType, endpoint, api1, api2);
      assert api1(RequestFor(items[|items| - 1], endpoint)).data == api2(RequestFor(items[|items| - 1], endpoint)).data;
    }
  }

  /** Nothing is enqueued exactly when no item both lacks a pagination token
      and carries a `meta.next_token`. */
  lemma {:induction false} EnqueuedEmptyIff(items: seq<WorkItem>)
    ensures Enqueued(items) == [] <==>
      forall x :: x in items ==> x.paginationToken.Some? || x.metaNextToken.None?
  {
    if items != [] {
      var init := items[..|items| - 1];
      var last := items[|items| - 1];
      EnqueuedEmptyIff(init);
      assert forall x :: x in items <==> x in init || x == last;
    }
  }

  /** A row of the list as the loop reads it: `str(row['tweet_id'])`, the
      row's `pagination_token` if it has that key, and
      `row.get('meta', {}).get('next_token')`, which is `None` for a row
      without a `meta` key. (A row's cells are scalars, so a `meta` object
      cannot be one of them.) */
  function SeedItem(row: Row): WorkItem
    requires "tweet_id" in row && "meta" !in row
  {
    var token := if "pagination_token" in row then Some(PyStr(row["pagination_token"])) else None;
    WorkItem(PyStr(row["tweet_id"]), token, None)
  }

  /** A list of rows as the loop reads it. */
  function Seeds(rows: seq<Row>): seq<WorkItem>
    requires forall r :: r in rows ==> "tweet_id" in r && "meta" !in r
  {
    seq(|rows|, j requires 0 <= j < |rows| => SeedItem(rows[j]))
  }

  /** Flattened past tweets have neither a `pagination_token` nor a `meta`
      column, so the loop reads each as a first-page item for its `tweet_id`
      with no next token. */
  lemma PastTweetSeeds(rows: seq<Row>)
    requires forall r :: r in rows ==> r.Keys == PastTweetColumns
    ensures |Seeds(rows)| == |rows|
    ensures forall j :: 0 <= j < |rows| ==>
      Seeds(rows)[j] == WorkItem(PyStr(rows[j]["tweet_id"]), None, None)
    ensures forall x :: x in Seeds(rows) ==> x.paginationToken.None? && x.metaNextToken.None?
  {
    assert "pagination_token" !in PastTweetColumns;
    forall j | 0 <= j < |rows|
      ensures Seeds(rows)[j] == WorkItem(PyStr(rows[j]["tweet_id"]), None, None)
    {
      assert rows[j] in rows;
    }
  }

  /** On flattened past tweets a pass enqueues nothing and sends exactly one
      first-page request per row, for that row's tweet, so it appends exactly
      the users of each row's first page. */
  lemma FirstPagesOnly(rows: seq<Row>, interactionType: string, endpoint: string,
                       api: InteractionRequest -> Response)
    requires forall r :: r in rows ==> r.Keys == PastTweetColumns
    ensures Enqueued(Seeds(rows)) == []
    ensures |Requests(Seeds(rows), endpoint)| == |rows|
    ensures forall j :: 0 <= j < |rows| ==>
      Requests(Seeds(rows), endpoint)[j] == InteractionRequest(PyStr(rows[j]["tweet_id"]), endpoint, None)
    ensures |InteractionRows(Seeds(rows), interactionType, endpoint, api)| == PageSizes(Seeds(rows), endpoint, api)
  {
    var s := Seeds(rows);
    PastTweetSeeds(rows);
    EnqueuedEmptyIff(s);
    RequestsAt(s, endpoint);
    InteractionRowsShape(s, interactionType, endpoint, api);
  }

  /** Lines 316-318: the like, quote and retweet passes over the same list and
      into the same accumulator. Each pass sees the pagination items the
      earlier passes appended, so every pass appends the same pagination items
      once more. */
  method CollectInteractions(tweetData: MutableList<WorkItem>, api: InteractionRequest -> Response,
                             acc: MutableList<Row>)
    returns (requests: seq<InteractionRequest>)
    modifies tweetData, acc
    ensures var s := old(tweetData.elems);
            var e := Enqueued(s);
            && tweetData.elems == s + e + e + e
            && acc.elems == old(acc.elems)
                            + InteractionRows(s + e, LikeLabel, LikeEndpoint, api)
                            + InteractionRows(s + e + e, QuoteLabel, QuoteEndpoint, api)
                            + InteractionRows(s + e + e + e, RetweetLabel, RetweetEndpoint, api)
            && requests == Requests(s + e, LikeEndpoint) + Requests(s + e + e, QuoteEndpoint)
                           + Requests(s + e + e + e, RetweetEndpoint)
  {
    ghost var s := tweetData.elems;
    ghost var e := Enqueued(s);
    RevisitEnqueuesAgain(s);
    EnqueuedAppend(s + e, e);
    EnqueuedAreCursors(s);
    CursorsEnqueueNothing(e);
    var likes := GetTweetInteractingUsers(tweetData, LikeLabel, LikeEndpoint, api, acc);
    var quotes := GetTweetInteractingUsers(tweetData, QuoteLabel, QuoteEndpoint, api, acc);
    var retweets := GetTweetInteractingUsers(tweetData, RetweetLabel, RetweetEndpoint, api, acc);
    requests := likes + quotes + retweets;
  }

  /** On the rows the script actually passes, which carry no `meta`, the three
      passes leave the list as it was and append, in pass order, the users of
      each row's first like, quote and retweet page, and nothing else. */
  lemma {:induction false} ThreePassesOnSeeds(rows: seq<Row>, api: InteractionRequest -> Response)
    requires forall r :: r in rows ==> r.Keys == PastTweetColumns
    ensures var s := Seeds(rows);
            var e := Enqueued(s);
            && s + e + e + e == s
            && |InteractionRows(s + e, LikeLabel, LikeEndpoint, api)
                + InteractionRows(s + e + e, QuoteLabel, QuoteEndpoint, api)
                + InteractionRows(s + e + e + e, RetweetLabel, RetweetEndpoint, api)|
               == PageSizes(s, LikeEndpoint, api) + PageSizes(s, QuoteEndpoint, api)
                  + PageSizes(s, RetweetEndpoint, api)
            && |Requests(s + e, LikeEndpoint) + Requests(s + e + e, QuoteEndpoint)
                + Requests(s + e + e + e, RetweetEndpoint)| == 3 * |rows|
  {
    var s := Seeds(rows);
    FirstPagesOnly(rows, LikeLabel, LikeEndpoint, api);
    FirstPagesOnly(rows, QuoteLabel, QuoteEndpoint, api);
    FirstPagesOnly(rows, RetweetLabel, RetweetEndpoint, api);
    assert s + [] == s;
  }

  /** An API under which tweet "1" has two pages of likers (three users, then
      one more behind the token "t") and tweet "2" has one page of two. */
  function TwoTweetApi(users: seq<RawUser>): InteractionRequest -> Response
    requires |users| == 6
  {
    q =>
      if q == InteractionRequest("1", LikeEndpoint, None) then Response(users[..3], Some("t"))
      else if q == InteractionRequest("1", LikeEndpoint, Some("t")) then Response([users[3]], None)
      else if q == InteractionRequest("2", LikeEndpoint, None) then Response(users[4..], None)
      else Response([], None)
  }

  /** The two items of the scenario: past tweets "1" and "2", without `meta`. */
  const TwoTweets: seq<WorkItem> := [WorkItem("1", None, None), WorkItem("2", None, None)]

  /** In the scenario the like pass sends two first-page requests and
      appends no pagination item. */
  lemma TwoTweetPages()
    ensures Enqueued(TwoTweets) == []
    ensures Requests(TwoTweets, LikeEndpoint)
         == [InteractionRequest("1", LikeEndpoint, None), InteractionRequest("2", LikeEndpoint, None)]
  {
    var items := TwoTweets;
    assert RequestFor(items[0], LikeEndpoint) == InteractionRequest("1", LikeEndpoint, None);
    assert RequestFor(items[1], LikeEndpoint) == InteractionRequest("2", LikeEndpoint, None);
    assert items[..1] == [items[0]];
    assert [items[0]][..0] == [];
    assert Enqueued(items[..1]) == [];
  }

  /** Each of the two first-page requests is answered with that tweet's
      first page, and the item's rows are those users tagged with its id. */
  lemma TwoTweetResponses(users: seq<RawUser>)
    requires |users| == 6
    ensures ItemRows(TwoTweets[0], LikeLabel, LikeEndpoint, TwoTweetApi(users))
         == TagUsers(users[..3], LikeLabel, "1")
    ensures ItemRows(TwoTweets[1], LikeLabel, LikeEndpoint, TwoTweetApi(users))
         == TagUsers(users[4..], LikeLabel, "2")
  {
    var api := TwoTweetApi(users);
    var q1 := InteractionRequest("1", LikeEndpoint, None);
    var q2 := InteractionRequest("2", LikeEndpoint, None);
    assert RequestFor(TwoTweets[0], LikeEndpoint) == q1;
    assert RequestFor(TwoTweets[1], LikeEndpoint) == q2;
    assert api(q1).data == users[..3];
    assert q2 != q1 && q2 != InteractionRequest("1", LikeEndpoint, Some("t"));
    assert api(q2).data == users[4..];
  }

  /** The like pass appends the first page of each tweet, in order. */
  lemma TwoTweetRows(users: seq<RawUser>)
    requires |users| == 6
    ensures InteractionRows(TwoTweets, LikeLabel, LikeEndpoint, TwoTweetApi(users))
         == TagUsers(users[..3], LikeLabel, "1") + TagUsers(users[4..], LikeLabel, "2")
  {
    var items := TwoTweets;
    var api := TwoTweetApi(users);
    var first := TagUsers(users[..3], LikeLabel, "1");
    var second := TagUsers(users[4..], LikeLabel, "2");
    TwoTweetResponses(users);
    assert items[..1] == [items[0]];
    assert [items[0]][..0] == [];
    assert InteractionRows(items[..1], LikeLabel, LikeEndpoint, api) == [] + first;
    assert InteractionRows(items, LikeLabel, LikeEndpoint, api) == ([] + first) + second;
    AppendEmpty(first);
  }

  /** Two past tweets whose likers span three pages in all (3 + 1 users for the
      first, 2 for the second): the like pass appends five rows, three for the
      first tweet and two for the second. The user on the first tweet's
      second page is never fetched, because the token sits in the response
      and the loop reads the item's `meta`. */
  lemma TwoTweetLikePass(users: seq<RawUser>)
    requires |users| == 6
    ensures var rows := InteractionRows(TwoTweets, LikeLabel, LikeEndpoint, TwoTweetApi(users));
            && |rows| == 5
            && (forall j :: 0 <= j < 3 ==> rows[j] == InteractionRow(users[j], LikeLabel, "1"))
            && (forall j :: 3 <= j < 5 ==> rows[j] == InteractionRow(users[j + 1], LikeLabel, "2"))
  {
    TwoTweetRows(users);
    var rows := InteractionRows(TwoTweets, LikeLabel, LikeEndpoint, TwoTweetApi(users));
    FirstPageRows(users, rows);
    SecondPageRows(users, rows);
  }

  /** The first tweet's three users tagged "1", then the last two tagged "2":
      the first three rows are those of the first page. */
  lemma FirstPageRows(users: seq<RawUser>, rows: seq<Row>)
    requires |users| == 6
    requires rows == TagUsers(users[..3], LikeLabel, "1") + TagUsers(users[4..], LikeLabel, "2")
    ensures |rows| == 5
    ensures forall j :: 0 <= j < 3 ==> rows[j] == InteractionRow(users[j], LikeLabel, "1")
  {
    TwoRunsAt(Tagger(LikeLabel, "1"), Tagger(LikeLabel, "2"), users);
  }

  /** The same rows: the last two are those of the second tweet's page. */
  lemma SecondPageRows(users: seq<RawUser>, rows: seq<Row>)
    requires |users| == 6
    requires rows == TagUsers(users[..3], LikeLabel, "1") + TagUsers(users[4..], LikeLabel, "2")
    ensures |rows| == 5
    ensures forall j :: 3 <= j < 5 ==> rows[j] == InteractionRow(users[j + 1], LikeLabel, "2")
  {
    TwoRunsAt(Tagger(LikeLabel, "1"), Tagger(LikeLabel, "2"), users);
  }

  /** Mapping `f` over the first three of six elements and `g` over the last
      two, read back one by one. */
  lemma TwoRunsAt<A, B>(f: A -> B, g: A -> B, xs: seq<A>)
    requires |xs| == 6
    ensures |MapSeq(f, xs[..3]) + MapSeq(g, xs[4..])| == 5
    ensures forall j :: 0 <= j < 3 ==> (MapSeq(f, xs[..3]) + MapSeq(g, xs[4..]))[j] == f(xs[j])
    ensures forall j :: 3 <= j < 5 ==> (MapSeq(f, xs[..3]) + MapSeq(g, xs[4..]))[j] == g(xs[j + 1])
  {
    MapSeqAt(f, xs[..3]);
    MapSeqAt(g, xs[4..]);
    assert forall j :: 0 <= j < 3 ==> xs[..3][j] == xs[j];
    assert forall k :: 0 <= k < 2 ==> xs[4..][k] == xs[k + 4];
  }
}
