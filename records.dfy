/**
 * The records the API returns and the flat rows the extractor builds from
 * them. A raw record is a JSON object whose fields may be missing (`None`
 * below, which is also what `dict.get` yields for them); a row is a Python
 * dict, modelled as a map from column name to cell.
 */
module Records {
  import opened Wrappers
  import opened TweetText

  /** A `public_metrics` object: counter name to count. */
  type Metrics = map<string, int>

  /** One tweet object as the API returns it. */
  datatype RawTweet = RawTweet(
    id: Option<string>,
    authorId: Option<string>,
    createdAt: Option<string>,
    text: Option<string>,
    publicMetrics: Option<Metrics>,
    replySettings: Option<string>)

  /** One user object as the API returns it. */
  datatype RawUser = RawUser(
    id: Option<string>,
    username: Option<string>,
    name: Option<string>,
    createdAt: Option<string>,
    location: Option<string>,
    verified: Option<bool>,
    publicMetrics: Option<Metrics>)

  /** A decoded response listing users: its `data` list and its `meta.next_token`. */
  datatype Response = Response(data: seq<RawUser>, nextToken: Option<string>)

  /** A value stored in a row; `Null` is Python's `None`. */
  datatype Cell = Null | Str(s: string) | Int(n: int) | Bool(b: bool)

  /** One flattened record: column name to value. */
  type Row = map<string, Cell>

  /** The exceptions that flattening one record can raise. */
  datatype FlattenError =
    | TextMissing       // `None.find('http')` raises AttributeError
    | CreatedAtMissing  // `None[:-1]` raises TypeError

  function StrCell(v: Option<string>): Cell
  {
    if v.Some? then Str(v.value) else Null
  }

  function BoolCell(v: Option<bool>): Cell
  {
    if v.Some? then Bool(v.value) else Null
  }

  /** `record.get('public_metrics', {}).get(key)`: a missing metrics object
      behaves as an empty one, and a missing counter is `None`. */
  function MetricCell(m: Option<Metrics>, key: string): Cell
  {
    if m.Some? && key in m.value then Int(m.value[key]) else Null
  }

  /** Python's `str()` of a cell: `None` prints as `None`, booleans as
      `True`/`False`, integers in decimal. */
  function PyStr(c: Cell): string
  {
    match c
    case Null => "None"
    case Str(s) => s
    case Int(n) => if n < 0 then "-" + Decimal(-n) else Decimal(n)
    case Bool(b) => if b then "True" else "False"
  }

  /** The decimal digits of `n`, most significant first. */
  function Decimal(n: nat): (r: string)
    ensures |r| >= 1
    ensures forall k :: 0 <= k < |r| ==> '0' <= r[k] <= '9'
  {
    if n < 10 then [(48 + n) as char]
    else Decimal(n / 10) + [(48 + n % 10) as char]
  }

  /** The engagement counters of a tweet row. */
  const TweetCounters: set<string> := {"like_count", "quote_count", "reply_count", "retweet_count"}

  /** The profile counters of a user row. */
  const UserCounters: set<string> := {"followers_count", "following_count", "tweet_count", "listed_count"}

  /** The columns of a past-tweet row besides its counters. */
  const PastTweetFields: set<string> := {"tweet_id", "created_at", "reply_settings", "tweet_text", "tweet_url"}

  /** The columns of a past-tweet row. */
  const PastTweetColumns: set<string> := PastTweetFields + TweetCounters

  /** The columns of a liked-tweet row besides its counters. */
  const LikedTweetFields: set<string> :=
    {"tweet_text", "tweet_url", "reply_settings", "tweet_id", "tweet_author_id", "created_at", "interaction_type"}

  /** The columns of a row for a tweet the account liked. */
  const AccountInteractionColumns: set<string> := LikedTweetFields + TweetCounters

  /** The columns of an interacting-user row besides its counters. */
  const InteractionFields: set<string> :=
    {"tweet_id", "interaction_type", "username", "user_id", "user_name", "is_verified", "location"}

  /** The columns of a row for a user who interacted with one of the account's tweets. */
  const InteractionColumns: set<string> := InteractionFields + UserCounters

  /** The columns of a follow row besides its counters. */
  const FollowFields: set<string> :=
    {"username", "user_id", "user_name", "user_created_at", "is_verified", "location"}

  /** The columns of a row for a followed or following user. */
  const FollowColumns: set<string> := FollowFields + UserCounters

  /** The label the extractor gives to tweets the account itself liked. */
  const LikedTweetLabel: string := "liked tweet"

  /** The tweet counters of a row, read through `public_metrics`. */
  function TweetCounterCells(m: Option<Metrics>): (r: Row)
    ensures r.Keys == TweetCounters
    ensures m.None? ==> forall k :: k in r ==> r[k] == Null
  {
    map["like_count" := MetricCell(m, "like_count"),
        "quote_count" := MetricCell(m, "quote_count"),
        "reply_count" := MetricCell(m, "reply_count"),
        "retweet_count" := MetricCell(m, "retweet_count")]
  }

  /** The user counters of a row, read through `public_metrics`. */
  function UserCounterCells(m: Option<Metrics>): (r: Row)
    ensures r.Keys == UserCounters
    ensures m.None? ==> forall k :: k in r ==> r[k] == Null
  {
    map["followers_count" := MetricCell(m, "followers_count"),
        "following_count" := MetricCell(m, "following_count"),
        "tweet_count" := MetricCell(m, "tweet_count"),
        "listed_count" := MetricCell(m, "listed_count")]
  }

  /** The non-counter cells of a past-tweet row, from a tweet that has a text
      and a timestamp. */
  function PastTweetCells(t: RawTweet, text: string, createdAt: string): (r: Row)
    ensures r.Keys == PastTweetFields
  {
    var split := SplitText(text);
    map[
      "tweet_id" := StrCell(t.id),
      "created_at" := Str(TrimLast(createdAt)),
      "reply_settings" := StrCell(t.replySettings),
      "tweet_text" := Str(split.tweetText),
      "tweet_url" := Str(split.tweetUrl)]
  }

  /** The row built for one of the account's recent tweets. The text is
      searched first and the timestamp trimmed second, so a tweet missing both
      fails on its text. */
  function FlattenPastTweet(t: RawTweet): (r: Result<Row, FlattenError>)
    ensures r.Success? <==> t.text.Some? && t.createdAt.Some?
    ensures t.text.None? ==> r == Failure(TextMissing)
    ensures t.text.Some? && t.createdAt.None? ==> r == Failure(CreatedAtMissing)
    ensures r.Success? ==> r.value.Keys == PastTweetColumns
  {
    if t.text.None? then Failure(TextMissing)
    else if t.createdAt.None? then Failure(CreatedAtMissing)
    else Success(PastTweetCells(t, t.text.value, t.createdAt.value) + TweetCounterCells(t.publicMetrics))
  }

  /** The non-counter cells of a liked-tweet row, from a tweet that has a text
      and a timestamp. */
  function LikedTweetCells(t: RawTweet, text: string, createdAt: string): (r: Row)
    ensures r.Keys == LikedTweetFields
    ensures r["interaction_type"] == Str(LikedTweetLabel)
  {
    var split := SplitText(text);
    map[
      "tweet_text" := Str(split.tweetText),
      "tweet_url" := Str(split.tweetUrl),
      "reply_settings" := StrCell(t.replySettings),
      "tweet_id" := StrCell(t.id),
      "tweet_author_id" := StrCell(t.authorId),
      "created_at" := Str(TrimLast(createdAt)),
      "interaction_type" := Str(LikedTweetLabel)]
  }

  /** The row built for a tweet the account liked, labelled `liked tweet`. */
  function FlattenLikedTweet(t: RawTweet): (r: Result<Row, FlattenError>)
    ensures r.Success? <==> t.text.Some? && t.createdAt.Some?
    ensures t.text.None? ==> r == Failure(TextMissing)
    ensures t.text.Some? && t.createdAt.None? ==> r == Failure(CreatedAtMissing)
    ensures r.Success? ==> r.value.Keys == AccountInteractionColumns
    ensures r.Success? ==> r.value["interaction_type"] == Str(LikedTweetLabel)
  {
    if t.text.None? then Failure(TextMissing)
    else if t.createdAt.None? then Failure(CreatedAtMissing)
    else
      var counters := TweetCounterCells(t.publicMetrics);
      assert "interaction_type" !in counters;
      Success(LikedTweetCells(t, t.text.value, t.createdAt.value) + counters)
  }

  /** The non-counter cells of an interacting-user row. */
  function InteractionCells(u: RawUser, interactionType: string, originTweetId: string): (r: Row)
    ensures r.Keys == InteractionFields
    ensures r["tweet_id"] == Str(originTweetId) && r["interaction_type"] == Str(interactionType)
  {
    map[
      "tweet_id" := Str(originTweetId),
      "interaction_type" := Str(interactionType),
      "username" := StrCell(u.username),
      "user_id" := StrCell(u.id),
      "user_name" := StrCell(u.name),
      "is_verified" := BoolCell(u.verified),
      "location" := StrCell(u.location)]
  }

  /** The row built for a user who interacted with tweet `originTweetId` in
      the way `interactionType` names. Nothing in it can raise. */
  function InteractionRow(u: RawUser, interactionType: string, originTweetId: string): (r: Row)
    ensures r.Keys == InteractionColumns
    ensures r["tweet_id"] == Str(originTweetId) && r["interaction_type"] == Str(interactionType)
  {
    var counters := UserCounterCells(u.publicMetrics);
    assert "tweet_id" !in counters && "interaction_type" !in counters;
    InteractionCells(u, interactionType, originTweetId) + counters
  }

  /** The non-counter cells of a follow row, from a user that has a timestamp. */
  function FollowCells(u: RawUser, createdAt: string): (r: Row)
    ensures r.Keys == FollowFields
  {
    map[
      "username" := StrCell(u.username),
      "user_id" := StrCell(u.id),
      "user_name" := StrCell(u.name),
      "user_created_at" := Str(TrimLast(createdAt)),
      "is_verified" := BoolCell(u.verified),
      "location" := StrCell(u.location)]
  }

  /** The row built for a followed or following user. */
  function FlattenFollow(u: RawUser): (r: Result<Row, FlattenError>)
    ensures r.Success? <==> u.createdAt.Some?
    ensures u.createdAt.None? ==> r == Failure(CreatedAtMissing)
    ensures r.Success? ==> r.value.Keys == FollowColumns
  {
    if u.createdAt.None? then Failure(CreatedAtMissing)
    else Success(FollowCells(u, u.createdAt.value) + UserCounterCells(u.publicMetrics))
  }

  /** A record without a `public_metrics` object still gets every counter
      column, each `None`, in all four kinds of row. */
  lemma MissingMetricsGiveNullCounters(t: RawTweet, u: RawUser, interactionType: string, originTweetId: string)
    requires t.publicMetrics.None? && u.publicMetrics.None?
    ensures FlattenPastTweet(t).Success? ==>
      forall k :: k in TweetCounters ==> FlattenPastTweet(t).value[k] == Null
    ensures FlattenLikedTweet(t).Success? ==>
      forall k :: k in TweetCounters ==> FlattenLikedTweet(t).value[k] == Null
    ensures forall k :: k in UserCounters ==> InteractionRow(u, interactionType, originTweetId)[k] == Null
    ensures FlattenFollow(u).Success? ==>
      forall k :: k in UserCounters ==> FlattenFollow(u).value[k] == Null
  {
  }
}
