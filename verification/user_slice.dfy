/** The users slice: the local mirror of the `users` collection and its
    reducers, the signed-in user lookup, and the follow and unfollow commands
    as two separate writes to the remote `users` collection. */
module UserSlice {
  import opened Common
  import opened Seqs
  import opened Records
  import opened Firestore
  import Mirror

  datatype UserState = UserState(users: seq<User>, user: Option<User>, error: Option<string>, isLoading: bool)

  /** `initialState`: empty and, unlike the posts slice, not loading. */
  const Initial: UserState := UserState([], None, None, false)

  /** The two follow-graph commands. */
  datatype FollowCommand = FollowUser | UnfollowUser

  datatype UserAction =
    | SetUsers(users: seq<User>)
    | AddUser(user: User)
    | ModifyUser(user: User)
    | RemoveUser(userId: string)
    | ResetUserState
    | FetchPending
    | FetchFulfilled(fetched: seq<User>)
    | FetchRejected(error: string)
    | CommandPending(command: FollowCommand)
    | CommandFulfilled(command: FollowCommand)
    | CommandRejected(command: FollowCommand, error: string)

  /** `addUser`: a user whose id is already mirrored is ignored; otherwise it
      goes to the front and loading ends. */
  function Add(s: UserState, u: User): (r: UserState)
    ensures Mirror.HasKey(s.users, u.id, UserId) ==> r == s
    ensures !Mirror.HasKey(s.users, u.id, UserId) ==>
      r.users == [u] + s.users && !r.isLoading && r.error == s.error && r.user == s.user
  {
    var (users, inserted) := Mirror.AddFront(s.users, u, UserId);
    if inserted then s.(users := users, isLoading := false) else s
  }

  /** `modifyUser`: the first user with the same id is replaced in place; an
      unknown id leaves the list unchanged (the source writes index -1, a stray
      property rather than an element). */
  function Modify(s: UserState, u: User): (r: UserState)
    ensures r.error == s.error && r.isLoading == s.isLoading && r.user == s.user
    ensures |r.users| == |s.users|
    ensures !Mirror.HasKey(s.users, u.id, UserId) ==> r.users == s.users
    ensures Mirror.HasKey(s.users, u.id, UserId) ==>
      exists i :: Mirror.FirstWithKey(s.users, u.id, UserId, i) && r.users == s.users[i := u]
  {
    s.(users := Mirror.Replace(s.users, u, UserId))
  }

  /** `removeUser`: every user with the id goes; the rest keep their order. */
  function Remove(s: UserState, userId: string): (r: UserState)
    ensures r.error == s.error && r.isLoading == s.isLoading && r.user == s.user
    ensures forall i :: 0 <= i < |r.users| ==> r.users[i].id != userId
    ensures forall i :: 0 <= i < |s.users| && s.users[i].id != userId ==> s.users[i] in r.users
    ensures Subseq(r.users, s.users)
    ensures !Mirror.HasKey(s.users, userId, UserId) ==> r == s
  {
    s.(users := Mirror.Remove(s.users, userId, UserId))
  }

  /** The users reducer. */
  function Reduce(s: UserState, a: UserAction): (r: UserState)
    ensures a.CommandPending? || a.CommandFulfilled? ==> r == s
    ensures a.CommandRejected? ==> r.users == s.users && r.isLoading == s.isLoading && r.error == Some(a.error)
    ensures a.CommandRejected? ==> r.user == s.user
    ensures a.SetUsers? ==> r.users == a.users && !r.isLoading && r.error == s.error && r.user == s.user
    ensures a.FetchFulfilled? ==> r.users == a.fetched && !r.isLoading && r.error == s.error && r.user == s.user
    ensures a.FetchPending? ==> r.users == s.users && r.isLoading && r.error == s.error && r.user == s.user
    ensures a.FetchRejected? ==> r.users == s.users && !r.isLoading && r.error == Some(a.error) && r.user == s.user
    ensures a.ResetUserState? ==> r.users == [] && r.user == None && r.error == None && !r.isLoading
    ensures a.AddUser? ==> r == Add(s, a.user)
    ensures a.ModifyUser? ==> r == Modify(s, a.user)
    ensures a.RemoveUser? ==> r == Remove(s, a.userId)
  {
    match a
    case SetUsers(users) => s.(users := users, isLoading := false)
    case AddUser(u) => Add(s, u)
    case ModifyUser(u) => Modify(s, u)
    case RemoveUser(id) => Remove(s, id)
    case ResetUserState => Initial
    case FetchPending => s.(isLoading := true)
    case FetchFulfilled(users) => s.(users := users, isLoading := false)
    case FetchRejected(e) => s.(error := Some(e), isLoading := false)
    case CommandPending(_) => s
    case CommandFulfilled(_) => s
    case CommandRejected(_, e) => s.(error := Some(e))
  }

  /** `addUser` twice is `addUser` once. */
  lemma AddIdempotent(s: UserState, u: User)
    ensures Add(Add(s, u), u) == Add(s, u)
  {
    Mirror.AddFrontIdempotent(s.users, u, UserId);
  }

  /** Every action keeps user ids distinct, provided a wholesale replacement
      brings distinct ids itself. */
  lemma IdsStayDistinct(s: UserState, a: UserAction)
    requires Mirror.UniqueKeys(s.users, UserId)
    requires a.SetUsers? ==> Mirror.UniqueKeys(a.users, UserId)
    requires a.FetchFulfilled? ==> Mirror.UniqueKeys(a.fetched, UserId)
    ensures Mirror.UniqueKeys(Reduce(s, a).users, UserId)
  {
    match a
    case AddUser(u) => Mirror.AddFrontKeepsUnique(s.users, u, UserId);
    case ModifyUser(u) => Mirror.ReplaceKeepsUnique(s.users, u, UserId);
    case RemoveUser(id) => Mirror.RemoveKeepsUnique(s.users, id, UserId);
    case _ =>
  }

  /** What `userSelector` yields: a user or `undefined`, or a thrown error. */
  datatype Selection = Throws | Selected(user: Option<User>)

  /** `userSelector`: the first mirrored user whose id is the signed-in uid.
      The uid is read inside the `find` callback, so with nobody signed in
      (`uid` is `None`) the selector throws as soon as the mirror holds a user,
      and yields `undefined` over an empty mirror. */
  function CurrentUser(users: seq<User>, uid: Option<string>): (r: Selection)
    ensures r.Throws? <==> uid.None? && |users| > 0
    ensures uid.None? && |users| == 0 ==> r == Selected(None)
    ensures uid.Some? ==> r.Selected?
    ensures uid.Some? ==> (r.user.None? <==> forall i :: 0 <= i < |users| ==> users[i].id != uid.value)
    ensures uid.Some? && r.user.Some? ==>
      exists i :: Mirror.FirstWithKey(users, uid.value, UserId, i) && users[i] == r.user.value
  {
    if uid.None? then (if |users| > 0 then Throws else Selected(None))
    else Selected(Mirror.Lookup(users, uid.value, UserId))
  }

  /** On a mirror with distinct ids, a signed-in user whose document is
      mirrored is selected as exactly that document. */
  lemma SelectsOwnDocument(users: seq<User>, i: int)
    requires 0 <= i < |users|
    requires Mirror.UniqueKeys(users, UserId)
    ensures CurrentUser(users, Some(users[i].id)) == Selected(Some(users[i]))
  {
    var r := CurrentUser(users, Some(users[i].id));
    assert Mirror.HasKey(users, users[i].id, UserId);
    var j :| Mirror.FirstWithKey(users, users[i].id, UserId, j) && users[j] == r.user.value;
    assert j == i;
  }

  // ---------------------------------------------------------------------------
  // The follow graph on the remote side

  /** The remote `users` collection, by document id. */
  type Db = map<string, User>

  /** The two username lists a follow command writes to. */
  datatype Field = Following | Followers

  /** The field transforms the commands send. */
  datatype Transform = Union(name: string) | Drop(name: string)

  /** The backend's answer to a write naming a document that does not exist. */
  const NotFound: string := "not-found"

  /** A transform applied to a stored list: `arrayUnion` or `arrayRemove`. */
  function Apply(list: seq<string>, t: Transform): seq<string> {
    match t
    case Union(n) => ArrayUnion(list, n)
    case Drop(n) => ArrayRemove(list, n)
  }

  /** One field of a user document after a transform. */
  function Transformed(u: User, f: Field, t: Transform): (r: User)
    ensures f.Following? ==> r.followers == u.followers
    ensures f.Followers? ==> r.following == u.following
    ensures f.Following? ==> r.following == Apply(u.following, t)
    ensures f.Followers? ==> r.followers == Apply(u.followers, t)
    ensures r == u.(following := r.following, followers := r.followers)
  {
    var list := if f.Following? then u.following else u.followers;
    var list' := Apply(list, t);
    if f.Following? then u.(following := list') else u.(followers := list')
  }

  /** `updateDoc(doc(db, 'users', id), { field: transform })`, given the
      backend's answer: it applies only when accepted and the document exists. */
  function UpdateDoc(db: Db, id: string, f: Field, t: Transform, reply: Outcome<()>): (r: Outcome<Db>)
    ensures r.Fulfilled? <==> reply.Fulfilled? && id in db
    ensures r.Fulfilled? ==> r.value == db[id := Transformed(db[id], f, t)]
  {
    if reply.Rejected? then Rejected(reply.reason)
    else if id !in db then Rejected(NotFound)
    else Fulfilled(db[id := Transformed(db[id], f, t)])
  }

  /** The arguments of both follow commands. */
  datatype FollowRequest = FollowRequest(userId: string, username: string, targetId: string, targetName: string)

  /** The arguments as a screen builds them from the signed-in user, whose id
      and username are `undefined` while that user is not loaded. */
  datatype FollowArgs = FollowArgs(userId: Option<string>, username: Option<string>, targetId: string, targetName: string)

  /** The arguments every follow button builds for `me` acting on `target`:
      `{ userId: me?.id, username: me?.username, targetId: target.id,
      targetName: target.username }`. */
  function ArgsFor(me: Option<User>, target: User): (a: FollowArgs)
    ensures a.userId.Some? <==> me.Some?
    ensures a.username.Some? <==> me.Some?
    ensures me.Some? ==> a.userId.value == me.value.id && a.username.value == me.value.username
    ensures a.targetId == target.id && a.targetName == target.username
  {
    FollowArgs(IdOf(me), NameOf(me), target.id, target.username)
  }

  /** The backend's answer to a document reference or field value built from
      `undefined`. */
  const InvalidArgument: string := "invalid-argument"

  /** The request the thunk can send, if the arguments are all defined. */
  function AsRequest(a: FollowArgs): (r: Option<FollowRequest>)
    ensures r.Some? <==> a.userId.Some? && a.username.Some?
    ensures r.Some? ==> r.value.userId == a.userId.value && r.value.username == a.username.value
    ensures r.Some? ==> r.value.targetId == a.targetId && r.value.targetName == a.targetName
  {
    if a.userId.Some? && a.username.Some? then Some(FollowRequest(a.userId.value, a.username.value, a.targetId, a.targetName))
    else None
  }

  /** The remote collection after a command, and how the command settled. */
  datatype Run = Run(db: Db, result: Outcome<()>)

  /** Only the `following` and `followers` lists of documents can differ. */
  ghost predicate OnlyFollowLists(db: Db, db': Db) {
    db'.Keys == db.Keys
    && forall id :: id in db ==> db'[id] == db[id].(following := db'[id].following, followers := db'[id].followers)
  }

  /** `followUser`: the actor's `following` gains the target's username, then, as
      a separate write, the target's `followers` gains the actor's username. A
      failure of the second write leaves the first in place. */
  function Follow(db: Db, req: FollowRequest, first: Outcome<()>, second: Outcome<()>): (r: Run)
    ensures OnlyFollowLists(db, r.db)
    ensures forall id :: id in db && id != req.userId && id != req.targetId ==> r.db[id] == db[id]
    ensures r.result.Fulfilled? <==> first.Fulfilled? && second.Fulfilled? && req.userId in db && req.targetId in db
    ensures !(first.Fulfilled? && req.userId in db) ==> r.db == db
    ensures first.Fulfilled? && req.userId in db ==>
      r.db[req.userId].following == ArrayUnion(db[req.userId].following, req.targetName)
    ensures r.result.Rejected? ==> forall id :: id in db ==> r.db[id].followers == db[id].followers
    ensures r.result.Fulfilled? ==>
      r.db[req.targetId].followers == ArrayUnion(db[req.targetId].followers, req.username)
    ensures forall id :: id in db && id != req.userId ==> r.db[id].following == db[id].following
    ensures forall id :: id in db && id != req.targetId ==> r.db[id].followers == db[id].followers
  {
    var w1 := UpdateDoc(db, req.userId, Following, Union(req.targetName), first);
    if w1.Rejected? then Run(db, Rejected(w1.reason))
    else
      var w2 := UpdateDoc(w1.value, req.targetId, Followers, Union(req.username), second);
      if w2.Rejected? then Run(w1.value, Rejected(w2.reason)) else Run(w2.value, Fulfilled(()))
  }

  /** `unfollowUser`: the same two writes in the same order, removing instead
      of adding, with the same partial outcome when the second one fails. */
  function Unfollow(db: Db, req: FollowRequest, first: Outcome<()>, second: Outcome<()>): (r: Run)
    ensures OnlyFollowLists(db, r.db)
    ensures forall id :: id in db && id != req.userId && id != req.targetId ==> r.db[id] == db[id]
    ensures r.result.Fulfilled? <==> first.Fulfilled? && second.Fulfilled? && req.userId in db && req.targetId in db
    ensures !(first.Fulfilled? && req.userId in db) ==> r.db == db
    ensures first.Fulfilled? && req.userId in db ==>
      r.db[req.userId].following == ArrayRemove(db[req.userId].following, req.targetName)
    ensures r.result.Rejected? ==> forall id :: id in db ==> r.db[id].followers == db[id].followers
    ensures r.result.Fulfilled? ==>
      r.db[req.targetId].followers == ArrayRemove(db[req.targetId].followers, req.username)
    ensures forall id :: id in db && id != req.userId ==> r.db[id].following == db[id].following
    ensures forall id :: id in db && id != req.targetId ==> r.db[id].followers == db[id].followers
  {
    var w1 := UpdateDoc(db, req.userId, Following, Drop(req.targetName), first);
    if w1.Rejected? then Run(db, Rejected(w1.reason))
    else
      assert w1.value[req.userId].following == ArrayRemove(db[req.userId].following, req.targetName);
      assert forall id :: id in db ==> w1.value[id].followers == db[id].followers;
      var w2 := UpdateDoc(w1.value, req.targetId, Followers, Drop(req.username), second);
      if w2.Rejected? then Run(w1.value, Rejected(w2.reason)) else Run(w2.value, Fulfilled(()))
  }

  /** A dispatched follow command: with an undefined id or username the
      document reference cannot be built and nothing is written. */
  function Dispatch(db: Db, command: FollowCommand, args: FollowArgs, first: Outcome<()>, second: Outcome<()>): (r: Run)
    ensures AsRequest(args).None? ==> r == Run(db, Rejected(InvalidArgument))
    ensures AsRequest(args).Some? && command.FollowUser? ==> r == Follow(db, AsRequest(args).value, first, second)
    ensures AsRequest(args).Some? && command.UnfollowUser? ==> r == Unfollow(db, AsRequest(args).value, first, second)
    ensures OnlyFollowLists(db, r.db)
  {
    match AsRequest(args)
    case None => Run(db, Rejected(InvalidArgument))
    case Some(req) => if command.FollowUser? then Follow(db, req, first, second) else Unfollow(db, req, first, second)
  }

  /** Removing a name a union has just added restores the user document. */
  lemma TransformRoundTrip(u: User, f: Field, n: string)
    requires n !in (if f.Following? then u.following else u.followers)
    ensures Transformed(Transformed(u, f, Union(n)), f, Drop(n)) == u
  {
    RemoveUndoesUnion(if f.Following? then u.following else u.followers, n);
  }

  /** Transforms of the two different lists of one document commute. */
  lemma TransformsCommute(u: User, t: Transform, t': Transform)
    ensures Transformed(Transformed(u, Followers, t'), Following, t)
         == Transformed(Transformed(u, Following, t), Followers, t')
  {
  }

  /** The collection after both follow writes are accepted. */
  function FollowBothWrites(db: Db, req: FollowRequest): (r: Db)
    requires req.userId in db && req.targetId in db
    ensures r == Follow(db, req, Fulfilled(()), Fulfilled(())).db
  {
    var f1 := db[req.userId := Transformed(db[req.userId], Following, Union(req.targetName))];
    f1[req.targetId := Transformed(f1[req.targetId], Followers, Union(req.username))]
  }

  /** The collection after both unfollow writes are accepted. */
  function UnfollowBothWrites(db: Db, req: FollowRequest): (r: Db)
    requires req.userId in db && req.targetId in db
    ensures r == Unfollow(db, req, Fulfilled(()), Fulfilled(())).db
  {
    var f1 := db[req.userId := Transformed(db[req.userId], Following, Drop(req.targetName))];
    f1[req.targetId := Transformed(f1[req.targetId], Followers, Drop(req.username))]
  }

  /** Unfollowing right after a first follow restores the remote collection. */
  lemma UnfollowUndoesFollow(db: Db, req: FollowRequest)
    requires req.userId in db && req.targetId in db
    requires req.targetName !in db[req.userId].following
    requires req.username !in db[req.targetId].followers
    ensures Unfollow(Follow(db, req, Fulfilled(()), Fulfilled(())).db, req, Fulfilled(()), Fulfilled(())).db == db
  {
    var f := FollowBothWrites(db, req);
    assert f.Keys == db.Keys;
    assert UnfollowBothWrites(f, req) == db by {
      BothWritesRoundTrip(db, req);
    }
  }

  /** The map-level core of `UnfollowUndoesFollow`. */
  lemma BothWritesRoundTrip(db: Db, req: FollowRequest)
    requires req.userId in db && req.targetId in db
    requires req.targetName !in db[req.userId].following
    requires req.username !in db[req.targetId].followers
    ensures req.userId in FollowBothWrites(db, req) && req.targetId in FollowBothWrites(db, req)
    ensures UnfollowBothWrites(FollowBothWrites(db, req), req) == db
  {
    if req.userId == req.targetId {
      SameDocRoundTrip(db, req);
    } else {
      TwoDocsRoundTrip(db, req);
    }
  }

  /** `BothWritesRoundTrip` when actor and target are one document. */
  lemma SameDocRoundTrip(db: Db, req: FollowRequest)
    requires req.userId in db && req.userId == req.targetId
    requires req.targetName !in db[req.userId].following
    requires req.username !in db[req.userId].followers
    ensures UnfollowBothWrites(FollowBothWrites(db, req), req) == db
  {
    var a := req.userId;
    var x := db[a];
    var y1 := Transformed(x, Following, Union(req.targetName));
    var y := Transformed(y1, Followers, Union(req.username));
    var f := FollowBothWrites(db, req);
    assert f == db[a := y];
    var z1 := Transformed(y, Following, Drop(req.targetName));
    var z := Transformed(z1, Followers, Drop(req.username));
    assert UnfollowBothWrites(f, req) == db[a := z];
    SelfRoundTrip(x, req.targetName, req.username);
    assert z == x;
  }

  /** `BothWritesRoundTrip` when actor and target are different documents. */
  lemma TwoDocsRoundTrip(db: Db, req: FollowRequest)
    requires req.userId in db && req.targetId in db && req.userId != req.targetId
    requires req.targetName !in db[req.userId].following
    requires req.username !in db[req.targetId].followers
    ensures UnfollowBothWrites(FollowBothWrites(db, req), req) == db
  {
    var a, b := req.userId, req.targetId;
    var f := FollowBothWrites(db, req);
    var u := UnfollowBothWrites(f, req);
    assert f[a] == Transformed(db[a], Following, Union(req.targetName));
    assert f[b] == Transformed(db[b], Followers, Union(req.username));
    assert u[a] == db[a] by { TransformRoundTrip(db[a], Following, req.targetName); }
    assert u[b] == db[b] by { TransformRoundTrip(db[b], Followers, req.username); }
    assert u == db;
  }

  /** A user following themselves and then unfollowing: the four writes hit one
      document and cancel out. */
  lemma SelfRoundTrip(x: User, t: string, n: string)
    requires t !in x.following && n !in x.followers
    ensures Transformed(Transformed(Transformed(Transformed(x, Following, Union(t)), Followers, Union(n)), Following, Drop(t)), Followers, Drop(n)) == x
  {
    var y := Transformed(x, Following, Union(t));
    TransformsCommute(y, Drop(t), Union(n));
    TransformRoundTrip(x, Following, t);
    TransformRoundTrip(x, Followers, n);
  }

  /** A completed follow followed by the two change-feed events it causes
      leaves the local mirror showing both halves of the relation; if only the
      actor's event arrives, the target still reads as it did. */
  lemma FollowReachesMirror(s: UserState, db: Db, req: FollowRequest)
    requires req.userId in db && req.targetId in db && req.userId != req.targetId
    requires Mirror.HasKey(s.users, req.userId, UserId) && Mirror.HasKey(s.users, req.targetId, UserId)
    requires db[req.userId].id == req.userId && db[req.targetId].id == req.targetId
    ensures var d := Follow(db, req, Fulfilled(()), Fulfilled(())).db;
      var s1 := Reduce(s, ModifyUser(d[req.userId]));
      var s2 := Reduce(s1, ModifyUser(d[req.targetId]));
      && Mirror.Lookup(s1.users, req.targetId, UserId) == Mirror.Lookup(s.users, req.targetId, UserId)
      && Mirror.Lookup(s2.users, req.userId, UserId).Some?
      && req.targetName in Mirror.Lookup(s2.users, req.userId, UserId).value.following
      && Mirror.Lookup(s2.users, req.targetId, UserId).Some?
      && req.username in Mirror.Lookup(s2.users, req.targetId, UserId).value.followers
  {
    var d := Follow(db, req, Fulfilled(()), Fulfilled(())).db;
    var s1 := Reduce(s, ModifyUser(d[req.userId]));
    Mirror.LookupAfterReplace(s.users, d[req.userId], UserId, req.targetId);
    assert Mirror.HasKey(s1.users, req.targetId, UserId) by {
      var i :| 0 <= i < |s.users| && s.users[i].id == req.targetId;
      assert s1.users[i].id == req.targetId;
    }
    Mirror.LookupAfterReplace(s1.users, d[req.targetId], UserId, req.userId);
  }
}
