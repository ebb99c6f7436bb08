/**
 * `get_follows_data`: one request for the accounts the target follows, or
 * that follow it, and one row per returned user appended to the caller's
 * list. The response's continuation token is never followed.
 */
module Follows {
  import opened Wrappers
  import opened Records
  import opened Lists

  /** One GET of `users/<userId>/<endpoint>` asking for at most `maxResults` users. */
  datatype FollowsRequest = FollowsRequest(userId: string, endpoint: string, maxResults: nat)

  /** The page size asked for, the largest the endpoint allows. */
  const FollowsMaxResults: nat := 1000

  const FollowingEndpoint: string := "following"
  const FollowersEndpoint: string := "followers"

  /** `get_follows_data(target_dict, api_endpoint, target_user_id)`: sends
      exactly one request, whatever the response says about further pages,
      and appends to `target` the flattened users of that one response, up
      to the first user whose flattening raises. */
  method GetFollowsData(target: MutableList<Row>, endpoint: string, targetUserId: string,
                        api: FollowsRequest -> Response)
    returns (requests: seq<FollowsRequest>, failure: Option<FlattenError>)
    modifies target
    ensures requests == [FollowsRequest(targetUserId, endpoint, FollowsMaxResults)]
    ensures target.elems == old(target.elems) + FlattenAll(api(requests[0]).data, FlattenFollow).rows
    ensures failure == FlattenAll(api(requests[0]).data, FlattenFollow).failure
  {
    var request := FollowsRequest(targetUserId, endpoint, FollowsMaxResults);
    var response := api(request);
    requests := [request];
    failure := AppendEach(target, response.data, FlattenFollow);
  }

  /** When every returned user has a `created_at`, the loop appends one row
      per user, in order, each with exactly the follow columns; otherwise it
      raises at the first user without one, having appended the rows of the
      users before it. */
  lemma FollowRows(users: seq<RawUser>)
    ensures var b := FlattenAll(users, FlattenFollow);
      && (b.failure.None? <==> forall u :: u in users ==> u.createdAt.Some?)
      && (forall j :: 0 <= j < |b.rows| ==> b.rows[j].Keys == FollowColumns && users[j].createdAt.Some?)
      && (b.failure.Some? ==> b.failure == Some(CreatedAtMissing) && users[|b.rows|].createdAt.None?)
  {
    var b := FlattenAll(users, FlattenFollow);
    if b.failure.None? {
      forall u | u in users ensures u.createdAt.Some? {
        var j :| 0 <= j < |users| && users[j] == u;
        assert FlattenFollow(users[j]).Success?;
      }
    } else {
      assert users[|b.rows|] in users;
    }
  }
}
