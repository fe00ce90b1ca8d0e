/** The explore screen of a username: who they might follow, who follows
    them, whom they follow, and which of the three tabs a route selects. */
module ExplorePage {
  import opened Common
  import opened Seqs
  import opened Records

  /** `username` appears among `u`'s followers. */
  predicate FollowedBy(u: User, username: string) {
    username in u.followers
  }

  /** A user offered to `username` to follow. */
  function Suggestable(username: string): User -> bool {
    (u: User) => !FollowedBy(u, username) && u.username != username
  }

  /** A user `username` follows. */
  function Followed(username: string): User -> bool {
    (u: User) => FollowedBy(u, username)
  }

  /** "Who to follow": users `username` does not follow, other than
      `username`. */
  function NotFollowing(users: seq<User>, username: string): (r: seq<User>)
    ensures Subseq(r, users)
    ensures forall i :: 0 <= i < |r| ==> !FollowedBy(r[i], username) && r[i].username != username && r[i] in users
    ensures forall i :: 0 <= i < |users| && !FollowedBy(users[i], username) && users[i].username != username ==>
      users[i] in r
  {
    Filter(users, Suggestable(username))
  }

  /** "Following": users whose followers include `username`. */
  function Following(users: seq<User>, username: string): (r: seq<User>)
    ensures Subseq(r, users)
    ensures forall i :: 0 <= i < |r| ==> FollowedBy(r[i], username) && r[i] in users
    ensures forall i :: 0 <= i < |users| && FollowedBy(users[i], username) ==> users[i] in r
  {
    Filter(users, Followed(username))
  }

  /** "Followers": users whose following list includes `username`. */
  function Followers(users: seq<User>, username: string): (r: seq<User>)
    ensures Subseq(r, users)
    ensures forall i :: 0 <= i < |r| ==> username in r[i].following && r[i] in users
    ensures forall i :: 0 <= i < |users| && username in users[i].following ==> users[i] in r
  {
    Filter(users, (u: User) => username in u.following)
  }

  /** The three lists the screen keeps between renders. */
  datatype Lists = Lists(notFollowing: seq<User>, followers: seq<User>, following: seq<User>)

  /** The lists are recomputed only while the mirror holds users; an empty
      mirror keeps the previous lists. */
  function NextLists(prev: Lists, users: seq<User>, username: string): (r: Lists)
    ensures |users| == 0 ==> r == prev
    ensures |users| > 0 ==> r == Lists(NotFollowing(users, username), Followers(users, username), Following(users, username))
  {
    if |users| > 0 then Lists(NotFollowing(users, username), Followers(users, username), Following(users, username))
    else prev
  }

  /** The tab a route segment selects: "to_follow" the first, "followers" the
      second, anything else, a missing segment included, the third. */
  function TabIndex(tab: Option<string>): (i: nat)
    ensures i <= 2
    ensures i == 0 <==> tab == Some("to_follow")
    ensures i == 1 <==> tab == Some("followers")
  {
    if tab == Some("to_follow") then 0
    else if tab == Some("followers") then 1
    else 2
  }

  /** The route segment each tab navigates to. */
  function TabSegment(i: nat): (seg: string)
    requires i <= 2
  {
    if i == 0 then "to_follow" else if i == 1 then "followers" else "following"
  }

  /** Clicking a tab and reading the route back selects the same tab. */
  lemma TabRoundTrip(i: nat)
    requires i <= 2
    ensures TabIndex(Some(TabSegment(i))) == i
  {
  }

  /** A tab's contents: its list, or its empty message. */
  datatype Panel = Cards(users: seq<User>) | Empty(message: string)

  function PanelOf(lists: Lists, i: nat): (p: Panel)
    requires i <= 2
    ensures var l := if i == 0 then lists.notFollowing else if i == 1 then lists.followers else lists.following;
      (p.Cards? <==> |l| > 0) && (p.Cards? ==> p.users == l)
  {
    var l := if i == 0 then lists.notFollowing else if i == 1 then lists.followers else lists.following;
    if |l| > 0 then Cards(l)
    else Empty(if i == 0 then "You are following everyone!" else if i == 1 then "You have no followers!" else "You are not following anyone!")
  }

  /** Nobody is both a suggestion and someone `username` follows. */
  lemma SuggestionsAndFollowingDisjoint(users: seq<User>, username: string)
    ensures forall i, j :: 0 <= i < |NotFollowing(users, username)| && 0 <= j < |Following(users, username)| ==>
      NotFollowing(users, username)[i] != Following(users, username)[j]
  {
  }

  /** Suggestions and followed users together never outnumber the mirror;
      the gap is the users named `username` whom `username` does not
      follow. */
  lemma {:induction false} SuggestionsAndFollowingFit(users: seq<User>, username: string)
    ensures |NotFollowing(users, username)| + |Following(users, username)| <= |users|
  {
    FilterDisjointFit(users, Suggestable(username), Followed(username));
  }
}
