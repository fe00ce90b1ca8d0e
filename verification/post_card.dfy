/** One post as the timelines and profiles show it: its author, the like
    button and count, and the owner-only options menu. */
module PostCard {
  import opened Common
  import opened Records
  import opened Seqs
  import opened Firestore
  import PostSlice
  import Mirror

  /** Shown when no mirrored user wrote the post, or the author's name is
      empty. */
  const DeletedUser: string := "[Deleted User]"

  /** The author: the first mirrored user whose username is the post's owner. */
  function Author(users: seq<User>, p: Post): (r: Option<User>)
    ensures r == UserNamed(users, p.owner)
    ensures r.None? <==> forall i :: 0 <= i < |users| ==> users[i].username != p.owner
    ensures r.Some? ==> r.value.username == p.owner && r.value in users
    ensures r.Some? ==> exists i :: Mirror.FirstWithKey(users, p.owner, UserName, i) && users[i] == r.value
  {
    UserNamed(users, p.owner)
  }

  /** `owner?.name || '[Deleted User]'`. */
  function AuthorName(author: Option<User>): (n: string)
    ensures n != ""
    ensures author.Some? && author.value.name != "" ==> n == author.value.name
    ensures n == DeletedUser <==> author.None? || author.value.name == "" || author.value.name == DeletedUser
  {
    if author.Some? && author.value.name != "" then author.value.name else DeletedUser
  }

  /** A post whose owner has no mirrored user reads as deleted. */
  lemma OrphanReadsDeleted(users: seq<User>, p: Post)
    requires forall i :: 0 <= i < |users| ==> users[i].username != p.owner
    ensures AuthorName(Author(users, p)) == DeletedUser
  {
  }

  /** The viewer has liked the post. This one predicate fills the heart and
      picks the command. */
  predicate Liked(p: Post, me: Option<User>) {
    Includes(p.likes, NameOf(me))
  }

  /** The command a click on the heart dispatches. */
  function OnLikeClick(p: Post, me: Option<User>): (c: PostSlice.Command)
    ensures c == PostSlice.UnlikePost <==> Liked(p, me)
    ensures c == PostSlice.LikePost <==> !Liked(p, me)
  {
    if Liked(p, me) then PostSlice.UnlikePost else PostSlice.LikePost
  }

  /** The number beside the heart. */
  function LikeCount(p: Post): nat
  {
    |p.likes|
  }

  /** The options menu is shown only to the post's owner. */
  predicate MenuShown(p: Post, me: Option<User>) {
    NameOf(me) == Some(p.owner)
  }

  /** The post after the like command's write reaches the store and is
      mirrored back: the command adds or removes the viewer's username. */
  function AfterLike(p: Post, username: string, c: PostSlice.Command): (r: Post)
    requires c == PostSlice.LikePost || c == PostSlice.UnlikePost
    ensures r == p.(likes := r.likes)
    ensures c == PostSlice.LikePost ==> username in r.likes && Subseq(p.likes, r.likes)
    ensures c == PostSlice.UnlikePost ==> username !in r.likes && Subseq(r.likes, p.likes)
    ensures forall x :: x != username ==> (x in r.likes <==> x in p.likes)
    ensures c == PostSlice.LikePost && username in p.likes ==> r == p
    ensures c == PostSlice.LikePost && username !in p.likes ==> r.likes == p.likes + [username]
    ensures c == PostSlice.UnlikePost ==>
      forall y {:trigger multiset(r.likes)[y]} :: multiset(r.likes)[y] == if y == username then 0 else multiset(p.likes)[y]
  {
    if c == PostSlice.LikePost then p.(likes := ArrayUnion(p.likes, username))
    else p.(likes := ArrayRemove(p.likes, username))
  }

  /** Each accepted click flips the heart and moves the count by at most one;
      two clicks on a post the viewer had not liked restore it exactly. */
  lemma ClickToggles(p: Post, me: User)
    ensures var p' := AfterLike(p, me.username, OnLikeClick(p, Some(me)));
      Liked(p', Some(me)) == !Liked(p, Some(me))
    ensures !Liked(p, Some(me)) ==> LikeCount(AfterLike(p, me.username, OnLikeClick(p, Some(me)))) == LikeCount(p) + 1
    ensures var p' := AfterLike(p, me.username, OnLikeClick(p, Some(me)));
      !Liked(p, Some(me)) ==> AfterLike(p', me.username, OnLikeClick(p', Some(me))) == p
  {
    if !Liked(p, Some(me)) {
      RemoveUndoesUnion(p.likes, me.username);
    }
  }

  /** The menu appears exactly on posts the viewer wrote, and then the author
      lookup finds the viewer's own username. */
  lemma MenuOnlyForOwnPosts(users: seq<User>, p: Post, me: User)
    ensures MenuShown(p, Some(me)) <==> p.owner == me.username
    ensures MenuShown(p, Some(me)) && Author(users, p).Some? ==> Author(users, p).value.username == me.username
    ensures !MenuShown(p, None)
  {
  }
}
