# Twitter info extractor — a Dafny model

`Twitter-API-Projects/twitter_info_extractor.py` is a batch script that pulls
one account's recent activity from the Twitter v2 API and loads it into five
warehouse tables: the account's past tweets, the users who liked, quoted or
retweeted them, the tweets the account liked, and its following and follower
lists. This project models the part of the script that turns API responses
into rows:

- the string surgery on each tweet: `text.find('http')`, the slices
  `text[:i-1]` and `text[i:]`, and the `created_at[:-1]` trim, all with
  Python's slice rules written out (`PySlicing`, `TweetText`);
- the flattening of raw tweets and users into rows with a fixed column set,
  reading counters through `public_metrics` with `None` for missing ones,
  and the two exceptions the flattening can raise (`Records`, `Lists`);
- `get_tweet_interacting_users`, which walks a list while appending
  pagination items to that same list, and `flatten_user_interaction`, which
  appends to one accumulator shared by all three passes (`Interactions`);
- `get_follows_data`, one request per follow list (`Follows`);
- the script body that chains them, ending at the first exception
  (`Extraction`).

The Python lists the script mutates (`flat_past_tweets`, the accumulators,
the list the pagination loop walks) are `MutableList` objects whose methods
append in place. Rows are maps from column name to cell. The HTTP endpoints
are function parameters from a request to a `Response` (its `data` list and
its `meta.next_token`), so the model can state exactly which requests are
sent. The two single-page tweet fetches (the past week's tweets and the
account's liked tweets) are parameters holding their `data` list.

### Behaviour of the code worth knowing

- With no `http` in a tweet's text, `find` gives -1, so the text column is
  `text[:-2]` and the url column is only the last character, `text[-1:]`
  (`TweetText.SplitWithoutMarker`).
- Flattening is not total: a tweet without `text` raises `AttributeError`,
  one without `created_at` raises `TypeError`, and either ends the script.
  The model returns these as errors.
- Pagination never fires on the script's own input. The loop reads
  `next_token` from the `meta` of the list item it is visiting, not from the
  response, and the flattened past-tweet rows it walks have no `meta`.
  Pagination items are handled by an `elif` branch that never appends. Two
  tweets whose likers come in pages of 3 + 1 and 2 therefore give 5 rows,
  not 6 (`Interactions.TwoTweetLikePass`).
- The like pass labels its rows `like tweet`; the account's own liked
  tweets are labelled `liked tweet`.

## Model

| member | source | states |
|---|---|---|
| PySlicing.Slice | Twitter-API-Projects/twitter_info_extractor.py:215-216 | A Python slice never raises and is never longer than the sequence it cuts |
| PySlicing.Find | Twitter-API-Projects/twitter_info_extractor.py:205 | `str.find` is -1 exactly when the substring occurs nowhere; otherwise it is an index where it occurs with no occurrence before it |
| TweetText.SplitAt | Twitter-API-Projects/twitter_info_extractor.py:215-216 | For any split index, the text column is a prefix of the tweet text and the url column a suffix |
| TweetText.SplitText | Twitter-API-Projects/twitter_info_extractor.py:205-216 | The text column is always a prefix of the tweet text and the url column always a suffix, whatever `find` returns |
| TweetText.SplitAroundMarker | Twitter-API-Projects/twitter_info_extractor.py:205-216 | When the link starts at index 1 or later, text part + the character before the link + url part is the whole text; the url starts with `http`; the text part contains no `http` |
| TweetText.FindFirst | Twitter-API-Projects/twitter_info_extractor.py:345 | `find` returns the index of the first occurrence |
| TweetText.SplitWithoutMarker | Twitter-API-Projects/twitter_info_extractor.py:345-350 | With no `http`, the text part is all but the last two characters and the url part is the last character |
| TweetText.SplitBeforeStart | Twitter-API-Projects/twitter_info_extractor.py:215-216 | Cutting at index -1 gives all but the last two characters as text and the last character as url; the text is empty for texts of at most two characters and the url only for the empty text |
| TweetText.SplitAtStart | Twitter-API-Projects/twitter_info_extractor.py:345-350 | A text starting with `http` has the whole text as url and all but its last character as text |
| TweetText.TrimLast | Twitter-API-Projects/twitter_info_extractor.py:209 | `created_at[:-1]` drops exactly the last character, and the empty string stays empty |
| Records.FlattenPastTweet | Twitter-API-Projects/twitter_info_extractor.py:201-217 | Succeeds exactly when the tweet has text and `created_at`; a missing text raises first, then a missing `created_at`; a row has exactly the past-tweet columns |
| Records.FlattenLikedTweet | Twitter-API-Projects/twitter_info_extractor.py:342-360 | Same success and error conditions; the row has exactly the account-interaction columns and is labelled `liked tweet` |
| Records.InteractionRow | Twitter-API-Projects/twitter_info_extractor.py:228-242 | Never fails; exactly the interaction columns, tagged with the origin tweet id and the interaction label |
| Records.FlattenFollow | Twitter-API-Projects/twitter_info_extractor.py:394-407 | Succeeds exactly when the user has `created_at`; a row has exactly the follow columns |
| Records.MissingMetricsGiveNullCounters | Twitter-API-Projects/twitter_info_extractor.py:210-213 | A record without `public_metrics` gets every counter column, each `None`, in all four kinds of row |
| Lists.FlattenAll | Twitter-API-Projects/twitter_info_extractor.py:201-217 | One row per record, in order, up to the first record that raises, and that record's error |
| Lists.AppendEach | Twitter-API-Projects/twitter_info_extractor.py:342-360 | The flattening loop appends exactly the rows `FlattenAll` describes and stops with its error |
| Interactions.FlattenUserInteraction | Twitter-API-Projects/twitter_info_extractor.py:226-242 | Appends one row per user, in order, to the shared accumulator |
| Interactions.TagUsersRows | Twitter-API-Projects/twitter_info_extractor.py:228-242 | Row `j` is the row built from user `j`, and there are as many rows as users |
| Interactions.GetTweetInteractingUsers | Twitter-API-Projects/twitter_info_extractor.py:245-313 | The walked list gains exactly the pagination items its items spawn; one request per item of the final list; the rows of every response appended in visiting order |
| Interactions.VisitItem | Twitter-API-Projects/twitter_info_extractor.py:247-313 | One item: a first-page or token request, its rows appended, and a pagination item appended only for an item without a token whose own `meta.next_token` is set |
| Interactions.EnqueuedBound | Twitter-API-Projects/twitter_info_extractor.py:274-285 | A pass at most doubles the list, so the loop ends |
| Interactions.EnqueuedAreCursors | Twitter-API-Projects/twitter_info_extractor.py:274-285 | Every appended item carries a token taken from the `meta.next_token` of a token-less item for the same tweet |
| Interactions.CursorsEnqueueNothing | Twitter-API-Projects/twitter_info_extractor.py:289-313 | Pagination items never append anything |
| Interactions.RevisitEnqueuesAgain | Twitter-API-Projects/twitter_info_extractor.py:316-318 | A second pass over the same list appends the same pagination items again and nothing else |
| Interactions.EnqueuedEmptyIff | Twitter-API-Projects/twitter_info_extractor.py:274 | A pass appends nothing exactly when no token-less item carries a `meta.next_token` |
| Interactions.InteractionRowsShape | Twitter-API-Projects/twitter_info_extractor.py:245-313 | One row per returned user, each with the interaction columns, the pass's label and the id of a tweet in the walked list |
| Interactions.ResponseCursorIgnored | Twitter-API-Projects/twitter_info_extractor.py:274 | The rows do not depend on the responses' own `next_token` |
| Interactions.RequestsAt | Twitter-API-Projects/twitter_info_extractor.py:245-262 | The loop sends one request per item it visits, request `j` being the one for item `j` |
| Interactions.PastTweetSeeds | Twitter-API-Projects/twitter_info_extractor.py:247-249 | Since flattened past-tweet rows have neither a `pagination_token` nor a `meta` column, the loop reads each as a first-page item for its own `tweet_id` with no next token |
| Interactions.FirstPagesOnly | Twitter-API-Projects/twitter_info_extractor.py:245-285 | On flattened past tweets a pass appends nothing to the list and sends exactly one first-page request per row, for that row's `tweet_id` |
| Interactions.CollectInteractions | Twitter-API-Projects/twitter_info_extractor.py:316-318 | The like, quote and retweet passes over one list into one accumulator, each seeing what earlier passes appended |
| Interactions.ThreePassesOnSeeds | Twitter-API-Projects/twitter_info_extractor.py:316-318 | On flattened past tweets the list comes back unchanged, the rows number the first-page users of the three passes and the requests number three per tweet |
| Interactions.TwoTweetPages | Twitter-API-Projects/twitter_info_extractor.py:245-285 | In the two-tweet scenario the like pass appends no pagination item and sends exactly two first-page requests, one per tweet |
| Interactions.TwoTweetRows | Twitter-API-Projects/twitter_info_extractor.py:245-313 | In the two-tweet scenario the like pass appends the first tweet's first-page users tagged with its id, then the second tweet's, and no one from the first tweet's second page |
| Interactions.TwoTweetLikePass | Twitter-API-Projects/twitter_info_extractor.py:245-313 | In the two-tweet scenario the like pass yields 5 rows: the first tweet's three first-page users, then the second tweet's two |
| Follows.GetFollowsData | Twitter-API-Projects/twitter_info_extractor.py:371-407 | Exactly one request asking for 1000 users; appends the flattened users of that response up to the first that raises |
| Follows.FollowRows | Twitter-API-Projects/twitter_info_extractor.py:394-407 | All users flatten exactly when all have `created_at`; each row has the follow columns; the loop stops at the first user without `created_at` |
| Extraction.PastTweetRowsHaveColumns | Twitter-API-Projects/twitter_info_extractor.py:206-217 | Every flattened past tweet has the past-tweet columns, `tweet_id` among them |
| Extraction.SeedRequestsAreFirstPages | Twitter-API-Projects/twitter_info_extractor.py:249-262 | Every request a pass over past-tweet rows sends asks for a first page of its endpoint, for the tweet of one of the rows |
| Extraction.InteractionPasses | Twitter-API-Projects/twitter_info_extractor.py:316-318 | The three passes leave the past-tweet list unchanged, append the like, quote and retweet rows in that order, and send exactly the like, then quote, then retweet first-page requests of the rows, 3 per tweet |
| Extraction.FollowLists | Twitter-API-Projects/twitter_info_extractor.py:409-410 | The following list, then the followers list, one request each; an error in the first means the second is never requested |
| Extraction.RunExtraction | Twitter-API-Projects/twitter_info_extractor.py:199-410 | The five row sets, or the error of the first record that does not flatten, in script order; the interaction requests are none if the past tweets fail and otherwise the three passes' first-page requests; the follow requests are none before the follow step, then following, then followers unless following failed |

## Left out

- HTTP transport, bearer authentication and URL assembly: requests are
  values and the API is a function parameter. `raise_for_status` is never
  called in the code, so transport errors are not modelled either.
- The `except` handlers around each request: each reads an attribute the
  caught exception does not have (such as `interaction_e.interaction_response`),
  so the handler itself raises `AttributeError` and the script ends. The
  model assumes every fetch returns a response.
- JSON decoding: raw records are datatypes. Field values of the wrong JSON
  type and floats are not modelled. A response without `data` (a
  `KeyError`) is not modelled: `Response.data` always exists.
- A row of the walked list with a `meta` key: row cells are scalars, so
  such a row is not represented; `Interactions.SeedItem` reads rows without
  one, for which `row.get('meta', {}).get('next_token')` is `None`.
- A `public_metrics` key present with value `null` (which would raise) is
  not told apart from a missing one: both give `None` counters.
- Warehouse provisioning, the table schemas and the row inserts (BigQuery
  client calls): external services whose calls change nothing the model
  states.
- The clock (`seven_days_back`, `current_time`) and environment variables:
  the past-tweet fetch is a parameter holding its `data` list.
- TweetText.SplitText: its own contract only says prefix and suffix; the
  exact pieces are stated case by case in `SplitAroundMarker`,
  `SplitWithoutMarker` and `SplitAtStart`.
- Records.FlattenFollow: its contract does not state the value of the
  `user_created_at` cell, only that the row has the follow columns.
