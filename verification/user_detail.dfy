/** A user card on the explore screen: the follow toggle, hidden on the
    viewer's own card, whose label and action read the same list. */
module UserDetail {
  import opened Common
  import opened Records
  import UserSlice

  /** The viewer is among the card user's followers. With no signed-in user
      the username reads `undefined` and is never found. */
  predicate FollowedByMe(user: User, me: Option<User>) {
    Includes(user.followers, NameOf(me))
  }

  /** The toggle is shown on every card but the viewer's own. */
  predicate ButtonShown(user: User, me: Option<User>) {
    Some(user.username) != NameOf(me)
  }

  /** The command a click dispatches, with the viewer's and the card's ids and
      usernames. */
  function OnClick(user: User, me: Option<User>): (r: (UserSlice.FollowCommand, UserSlice.FollowArgs))
    ensures r.0.UnfollowUser? <==> FollowedByMe(user, me)
    ensures r.1 == UserSlice.ArgsFor(me, user)
  {
    (if FollowedByMe(user, me) then UserSlice.UnfollowUser else UserSlice.FollowUser, UserSlice.ArgsFor(me, user))
  }

  /** The toggle's label. */
  function Label(user: User, me: Option<User>): (l: string)
    ensures l == "Unfollow" <==> FollowedByMe(user, me)
    ensures l == "Follow" <==> !FollowedByMe(user, me)
  {
    if FollowedByMe(user, me) then "Unfollow" else "Follow"
  }

  /** The label always names the command the click sends. */
  lemma LabelNamesCommand(user: User, me: Option<User>)
    ensures Label(user, me) == "Unfollow" <==> OnClick(user, me).0 == UserSlice.UnfollowUser
  {
  }

  /** A click whose two writes are accepted flips the card once the target's
      document is mirrored back: "Follow" becomes "Unfollow" and back. */
  lemma AcceptedClickFlipsLabel(db: UserSlice.Db, user: User, me: User)
    requires me.id in db && user.id in db && db[user.id] == user
    requires ButtonShown(user, Some(me))
    ensures var (cmd, args) := OnClick(user, Some(me));
      var run := UserSlice.Dispatch(db, cmd, args, Outcome.Fulfilled(()), Outcome.Fulfilled(()));
      && run.result.Fulfilled?
      && (Label(run.db[user.id], Some(me)) == "Unfollow" <==> Label(user, Some(me)) == "Follow")
  {
  }

  /** Without a signed-in user every card offers "Follow", and the click is
      rejected before anything is written. */
  lemma SignedOutClickWritesNothing(db: UserSlice.Db, user: User, first: Outcome<()>, second: Outcome<()>)
    ensures Label(user, None) == "Follow"
    ensures var (cmd, args) := OnClick(user, None);
      UserSlice.Dispatch(db, cmd, args, first, second) == UserSlice.Run(db, Outcome.Rejected(UserSlice.InvalidArgument))
  {
  }
}
