/** The profile screen of a username: whose profile it is, their posts and
    the posts they liked, and the follow button with its label and action. */
module ProfilePage {
  import opened Common
  import opened Seqs
  import opened Records
  import UserSlice
  import Toast

  /** The posts `username` wrote, in mirror order. */
  function UserPosts(posts: seq<Post>, username: string): (r: seq<Post>)
    ensures Subseq(r, posts)
    ensures forall i :: 0 <= i < |r| ==> r[i].owner == username && r[i] in posts
    ensures forall i :: 0 <= i < |posts| && posts[i].owner == username ==> posts[i] in r
  {
    Filter(posts, (p: Post) => p.owner == username)
  }

  /** The posts `username` liked, in mirror order. */
  function LikedPosts(posts: seq<Post>, username: string): (r: seq<Post>)
    ensures Subseq(r, posts)
    ensures forall i :: 0 <= i < |r| ==> username in r[i].likes && r[i] in posts
    ensures forall i :: 0 <= i < |posts| && username in posts[i].likes ==> posts[i] in r
  {
    Filter(posts, (p: Post) => username in p.likes)
  }

  /** What the screen keeps between renders. */
  datatype Profile = Profile(user: Option<User>, userPosts: seq<Post>, likedPosts: seq<Post>)

  /** The profile is recomputed only while the user mirror is non-empty. */
  function NextProfile(prev: Profile, users: seq<User>, username: string, posts: seq<Post>): (r: Profile)
    ensures |users| == 0 ==> r == prev
    ensures |users| > 0 ==> r.user == UserNamed(users, username)
    ensures |users| > 0 ==> r.userPosts == UserPosts(posts, username) && r.likedPosts == LikedPosts(posts, username)
  {
    if |users| > 0 then Profile(UserNamed(users, username), UserPosts(posts, username), LikedPosts(posts, username))
    else prev
  }

  /** The header's post count. */
  function PostsCount(p: Profile): nat
  {
    |p.userPosts|
  }

  /** Every post on a recomputed profile is written by the profile's user, so
      the count never exceeds the posts that user wrote. */
  lemma CountIsAuthored(prev: Profile, users: seq<User>, username: string, posts: seq<Post>)
    requires |users| > 0
    ensures PostsCount(NextProfile(prev, users, username, posts)) <= |posts|
    ensures var p := NextProfile(prev, users, username, posts);
      p.user.Some? ==> forall i :: 0 <= i < |p.userPosts| ==> p.userPosts[i].owner == p.user.value.username
  {
  }

  /** The button in the banner: the viewer's own profile gets "Edit Profile",
      any other the follow toggle. The comparison is on ids, with a missing
      profile or viewer reading as `undefined`. */
  datatype Button = EditProfile | FollowToggle

  function BannerButton(user: Option<User>, me: Option<User>): (b: Button)
    ensures b.EditProfile? <==> IdOf(user) == IdOf(me)
  {
    if IdOf(user) == IdOf(me) then EditProfile else FollowToggle
  }

  /** The toggle's label, read from the viewer's own `following` list. */
  function Label(user: Option<User>, me: Option<User>): (l: string)
    ensures l == "Unfollow" <==> me.Some? && user.Some? && user.value.username in me.value.following
    ensures l == "Follow" || l == "Unfollow"
  {
    if me.Some? && user.Some? && user.value.username in me.value.following then "Unfollow" else "Follow"
  }

  /** What a click on the toggle does. Reading the profile's followers throws
      while the profile is missing, and reading the viewer's username throws
      while the viewer is not loaded. */
  datatype Click = Throws | Dispatch(command: UserSlice.FollowCommand, args: UserSlice.FollowArgs)

  /** The click's command is read from the profile's `followers` list, not from
      the list the label reads. */
  function OnClick(user: Option<User>, me: Option<User>): (c: Click)
    ensures c.Throws? <==> user.None? || me.None?
    ensures c.Dispatch? ==> c.args == UserSlice.ArgsFor(me, user.value)
    ensures c.Dispatch? ==> (c.command.UnfollowUser? <==> me.value.username in user.value.followers)
  {
    if user.None? || me.None? then Throws
    else
      var following := me.value.username in user.value.followers;
      Dispatch(if following then UserSlice.UnfollowUser else UserSlice.FollowUser, UserSlice.ArgsFor(me, user.value))
  }

  /** The toast after a follow command settles: the backend's error, or which
      user was followed or unfollowed. */
  function FollowToast(command: UserSlice.FollowCommand, targetName: string, result: Outcome<()>): (t: Toast.ToastOptions)
    ensures result.Rejected? ==> t.status == Some("error") && t.description == Some(result.reason)
    ensures result.Fulfilled? ==> t.status.None?
    ensures result.Fulfilled? && command.FollowUser? ==> t.description == Some("You followed " + targetName)
    ensures result.Fulfilled? && command.UnfollowUser? ==> t.description == Some("You unfollowed " + targetName)
  {
    if result.Rejected? then Toast.Notice(Some("error"), result.reason)
    else if command.FollowUser? then Toast.Notice(None, "You followed " + targetName)
    else Toast.Notice(None, "You unfollowed " + targetName)
  }

  /** The follow relation read from either side gives the same answer. */
  ghost predicate Symmetric(users: seq<User>) {
    forall i, j :: 0 <= i < |users| && 0 <= j < |users| ==>
      (users[i].username in users[j].followers <==> users[j].username in users[i].following)
  }

  /** When the mirror's follow lists are symmetric, the label names the
      command a click dispatches. */
  lemma LabelMatchesClick(users: seq<User>, a: nat, b: nat)
    requires a < |users| && b < |users|
    requires Symmetric(users)
    ensures var me, user := users[a], users[b];
      OnClick(Some(user), Some(me)).Dispatch?
      && (Label(Some(user), Some(me)) == "Unfollow" <==> OnClick(Some(user), Some(me)).command.UnfollowUser?)
  {
    assert users[a].username in users[b].followers <==> users[b].username in users[a].following;
  }

  /** After a follow whose second write failed, the viewer's `following` has
      the target but the target's `followers` lacks the viewer: the label
      reads "Unfollow" while a click sends another follow. */
  lemma HalfFollowDiverges(db: UserSlice.Db, me: User, user: User, e: string)
    requires me.id in db && user.id in db && me.id != user.id
    requires db[me.id] == me && db[user.id] == user
    requires me.username !in user.followers
    ensures var run := UserSlice.Follow(db, UserSlice.FollowRequest(me.id, me.username, user.id, user.username),
                                        Outcome.Fulfilled(()), Outcome.Rejected(e));
      var me', user' := run.db[me.id], run.db[user.id];
      && run.result.Rejected?
      && Label(Some(user'), Some(me')) == "Unfollow"
      && OnClick(Some(user'), Some(me')) == Dispatch(UserSlice.FollowUser, UserSlice.ArgsFor(Some(me'), user'))
  {
  }
}
