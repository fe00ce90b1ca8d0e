/** The "Who to follow" panel beside every screen: up to five users the
    signed-in user neither is nor follows, each with a follow button. */
module SideBar {
  import opened Common
  import opened Seqs
  import opened Records
  import UserSlice

  /** At most this many suggestions are shown. */
  const MaxShown: nat := 5

  /** A user offered to `me`: `me`'s username is not among their followers,
      and they do not carry `me`'s username. With no signed-in user both
      tests read `undefined`, which no list contains and no username equals. */
  predicate Suggestable(me: Option<User>, u: User) {
    !Includes(u.followers, NameOf(me)) && Some(u.username) != NameOf(me)
  }

  /** The suggestions, in mirror order. */
  function Suggestions(users: seq<User>, me: Option<User>): (r: seq<User>)
    ensures Subseq(r, users)
    ensures forall i :: 0 <= i < |r| ==> Suggestable(me, r[i]) && r[i] in users
    ensures forall i :: 0 <= i < |users| && Suggestable(me, users[i]) ==> users[i] in r
    ensures me.None? ==> r == users
  {
    Filter(users, (u: User) => Suggestable(me, u))
  }

  /** A suggestion is never the signed-in user and never someone they follow
      according to that user's followers list. */
  lemma NeverSelfNorFollowed(users: seq<User>, me: User, i: int)
    requires 0 <= i < |Suggestions(users, Some(me))|
    ensures Suggestions(users, Some(me))[i].username != me.username
    ensures me.username !in Suggestions(users, Some(me))[i].followers
  {
  }

  /** What the panel renders: a skeleton while users load, "Empty" once loaded
      with nothing to suggest, and the first five suggestions whenever there
      are any, even while loading. */
  datatype Panel = Panel(skeleton: bool, empty: bool, cards: seq<User>)

  function Show(isLoading: bool, suggestions: seq<User>): (p: Panel)
    ensures p.skeleton <==> isLoading
    ensures p.empty <==> !isLoading && |suggestions| == 0
    ensures |p.cards| == if |suggestions| < MaxShown then |suggestions| else MaxShown
    ensures forall i :: 0 <= i < |p.cards| ==> p.cards[i] == suggestions[i]
  {
    Panel(isLoading, !isLoading && |suggestions| == 0, Take(suggestions, MaxShown))
  }

  /** The cards shown are suggestions: they keep every guarantee of the
      filter, and at most five of them appear. */
  lemma CardsAreSuggestions(isLoading: bool, users: seq<User>, me: Option<User>)
    ensures var cards := Show(isLoading, Suggestions(users, me)).cards;
      |cards| <= MaxShown && forall i :: 0 <= i < |cards| ==> Suggestable(me, cards[i]) && cards[i] in users
  {
  }

  /** A card's button always sends a follow, with the signed-in user's id and
      username and the card's. Once both writes are accepted the card's
      user, mirrored back, is no longer a suggestion. */
  lemma FollowRemovesSuggestion(db: UserSlice.Db, me: User, card: User)
    requires me.id in db && card.id in db
    requires db[card.id] == card
    ensures var run := UserSlice.Dispatch(db, UserSlice.FollowUser, UserSlice.ArgsFor(Some(me), card), Outcome.Fulfilled(()), Outcome.Fulfilled(()));
      run.result.Fulfilled? && !Suggestable(Some(me), run.db[card.id])
  {
  }
}
