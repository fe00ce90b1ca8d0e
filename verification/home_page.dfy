/** The home timeline: the posts of the signed-in user and of the users they
    follow, the rule deciding when that list is recomputed, and what the
    timeline shows while loading, when empty, and otherwise. */
module HomePage {
  import opened Common
  import opened Seqs
  import opened Records

  /** A post belongs on `user`'s timeline: they wrote it, or they follow its
      author. */
  predicate OnTimeline(user: User, p: Post) {
    p.owner == user.username || p.owner in user.following
  }

  /** The timeline of `user` over the mirrored posts. */
  function Feed(posts: seq<Post>, user: User): (r: seq<Post>)
    ensures Subseq(r, posts)
    ensures forall i :: 0 <= i < |r| ==> OnTimeline(user, r[i]) && r[i] in posts
    ensures forall i :: 0 <= i < |posts| && OnTimeline(user, posts[i]) ==> posts[i] in r
    ensures forall i :: 0 <= i < |posts| && posts[i].owner == user.username ==> posts[i] in r
  {
    Filter(posts, p => OnTimeline(user, p))
  }

  /** The timeline kept between renders, as written: it is recomputed only
      when a user is known and the post list is non-empty, and otherwise the
      previous value is kept. */
  function NextFeedAsWritten(prev: seq<Post>, user: Option<User>, posts: seq<Post>): (r: seq<Post>)
    ensures user.Some? && |posts| > 0 ==> r == Feed(posts, user.value)
    ensures user.None? || |posts| == 0 ==> r == prev
  {
    if user.Some? && |posts| > 0 then Feed(posts, user.value) else prev
  }

  /** Removing the last post leaves the removed post on the timeline: the list
      is empty, so the timeline is not recomputed. */
  lemma StaleAfterLastRemoval(user: User, p: Post)
    requires p.owner == user.username
    ensures var before := NextFeedAsWritten([], Some(user), [p]);
      before == [p] && NextFeedAsWritten(before, Some(user), []) == [p]
  {
    var before := NextFeedAsWritten([], Some(user), [p]);
    assert p in before;
  }

  /** The timeline kept between renders, recomputed whenever a user is known,
      including over an empty post list. */
  function NextFeed(prev: seq<Post>, user: Option<User>, posts: seq<Post>): (r: seq<Post>)
    ensures user.Some? ==> r == Feed(posts, user.value)
    ensures user.None? ==> r == prev
    ensures user.Some? && |posts| > 0 ==> r == NextFeedAsWritten(prev, user, posts)
  {
    if user.Some? then Feed(posts, user.value) else prev
  }

  /** With a known user the timeline never shows a post the mirror no longer
      holds, whatever it showed before. */
  lemma FeedTracksPosts(prev: seq<Post>, user: User, posts: seq<Post>)
    ensures var r := NextFeed(prev, Some(user), posts);
      Subseq(r, posts) && (|posts| == 0 ==> r == [])
  {
  }

  /** What the timeline renders. */
  datatype Screen = Skeleton | EmptyMessage | PostList(posts: seq<Post>)

  /** Loading wins; then an empty timeline shows the empty message; otherwise
      the posts are listed in timeline order. */
  function Show(isLoading: bool, feed: seq<Post>): (r: Screen)
    ensures r.Skeleton? <==> isLoading
    ensures r.EmptyMessage? <==> !isLoading && |feed| == 0
    ensures r.PostList? ==> r.posts == feed && |feed| > 0
  {
    if isLoading then Skeleton
    else if |feed| == 0 then EmptyMessage
    else PostList(feed)
  }

  /** Once loaded, a user who has posted never sees the empty message. */
  lemma OwnPostNeverEmpty(prev: seq<Post>, user: User, posts: seq<Post>, i: int)
    requires 0 <= i < |posts| && posts[i].owner == user.username
    ensures Show(false, NextFeed(prev, Some(user), posts)).PostList?
  {
    assert posts[i] in NextFeed(prev, Some(user), posts);
  }
}
