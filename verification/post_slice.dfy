/** The posts slice: the local mirror of the `posts` collection, the reducers the
    change feed drives, and the cases of the post commands, which report back
    without touching the list. */
module PostSlice {
  import opened Common
  import opened Seqs
  import opened Records
  import Mirror

  datatype PostState = PostState(posts: seq<Post>, error: Option<string>, isLoading: bool)

  /** `initialState`: empty and loading. */
  const Initial: PostState := PostState([], None, true)

  /** The post commands: each is a remote write whose result reaches the list
      only through the change feed. */
  datatype Command = CreatePost | LikePost | UnlikePost | DeletePost

  datatype PostAction =
    | SetPosts(posts: seq<Post>)
    | ModifyPost(post: Post)
    | RemovePost(postId: string)
    | AddPost(post: Post)
    | ResetPostState
    | CommandPending(command: Command)
    | CommandFulfilled(command: Command)
    | CommandRejected(command: Command, error: string)
    | FetchPending
    | FetchFulfilled(fetched: seq<Post>)
    | FetchRejected(error: string)

  /** The arguments of `createPost`; `imageUrl` may be left out. */
  datatype PostRequest = PostRequest(body: string, owner: string, imageUrl: Option<string>)

  /** The record `createPost` stores, with the id the backend assigned and the
      creation time. A falsy image URL is stored as `null`. */
  function NewPost(req: PostRequest, id: string, now: string): (p: Post)
    ensures p.likes == []
    ensures Truthy(req.imageUrl) ==> p.imageUrl == req.imageUrl
    ensures !Truthy(req.imageUrl) ==> p.imageUrl == None
    ensures p.id == id && p.body == req.body && p.owner == req.owner && p.createdAt == now
  {
    Post(id, req.body, if Truthy(req.imageUrl) then req.imageUrl else None, [], req.owner, now)
  }

  /** The `createPost` thunk, given how the insertion went: the backend either
      assigns an id or fails with a message. */
  function CreatePostThunk(req: PostRequest, inserted: Outcome<string>, now: string): (r: Outcome<Post>)
    ensures r.Fulfilled? <==> inserted.Fulfilled?
    ensures r.Fulfilled? ==> r.value.id == inserted.value && r.value.likes == [] && r.value.owner == req.owner
    ensures r.Rejected? ==> r.reason == inserted.reason
  {
    match inserted
    case Fulfilled(id) => Fulfilled(NewPost(req, id, now))
    case Rejected(m) => Rejected(m)
  }

  /** `addPost`: a post whose id is already mirrored is ignored; otherwise it
      goes to the front and loading ends. */
  function Add(s: PostState, p: Post): (r: PostState)
    ensures Mirror.HasKey(s.posts, p.id, PostId) ==> r == s
    ensures !Mirror.HasKey(s.posts, p.id, PostId) ==>
      r.posts == [p] + s.posts && !r.isLoading && r.error == s.error
  {
    var (posts, inserted) := Mirror.AddFront(s.posts, p, PostId);
    if inserted then s.(posts := posts, isLoading := false) else s
  }

  /** `modifyPost`: the first post with the same id is replaced in place. For an
      unknown id the source assigns index -1, which adds a stray property to the
      array and no element; the list is therefore unchanged. */
  function Modify(s: PostState, p: Post): (r: PostState)
    ensures r.error == s.error && r.isLoading == s.isLoading
    ensures |r.posts| == |s.posts|
    ensures !Mirror.HasKey(s.posts, p.id, PostId) ==> r.posts == s.posts
    ensures Mirror.HasKey(s.posts, p.id, PostId) ==>
      exists i :: Mirror.FirstWithKey(s.posts, p.id, PostId, i) && r.posts == s.posts[i := p]
  {
    s.(posts := Mirror.Replace(s.posts, p, PostId))
  }

  /** `removePost`: every post with the id goes; the rest keep their order. */
  function Remove(s: PostState, postId: string): (r: PostState)
    ensures r.error == s.error && r.isLoading == s.isLoading
    ensures forall i :: 0 <= i < |r.posts| ==> r.posts[i].id != postId
    ensures forall i :: 0 <= i < |s.posts| && s.posts[i].id != postId ==> s.posts[i] in r.posts
    ensures Subseq(r.posts, s.posts)
    ensures !Mirror.HasKey(s.posts, postId, PostId) ==> r == s
  {
    s.(posts := Mirror.Remove(s.posts, postId, PostId))
  }

  /** The posts reducer. */
  function Reduce(s: PostState, a: PostAction): (r: PostState)
    ensures a.CommandPending? || a.CommandFulfilled? ==> r == s
    ensures a.CommandRejected? ==> r.posts == s.posts && r.isLoading == s.isLoading && r.error == Some(a.error)
    ensures a.SetPosts? ==> r.posts == a.posts && !r.isLoading && r.error == s.error
    ensures a.FetchFulfilled? ==> r.posts == a.fetched && !r.isLoading && r.error == s.error
    ensures a.FetchPending? ==> r.posts == s.posts && r.isLoading && r.error == s.error
    ensures a.FetchRejected? ==> r.posts == s.posts && !r.isLoading && r.error == Some(a.error)
    ensures a.ResetPostState? ==> r.posts == [] && r.error == None && r.isLoading
    ensures a.AddPost? ==> r == Add(s, a.post)
    ensures a.ModifyPost? ==> r == Modify(s, a.post)
    ensures a.RemovePost? ==> r == Remove(s, a.postId)
  {
    match a
    case SetPosts(posts) => s.(posts := posts, isLoading := false)
    case ModifyPost(p) => Modify(s, p)
    case RemovePost(id) => Remove(s, id)
    case AddPost(p) => Add(s, p)
    case ResetPostState => Initial
    case CommandPending(_) => s
    case CommandFulfilled(_) => s
    case CommandRejected(_, e) => s.(error := Some(e))
    case FetchPending => s.(isLoading := true)
    case FetchFulfilled(posts) => s.(posts := posts, isLoading := false)
    case FetchRejected(e) => s.(error := Some(e), isLoading := false)
  }

  /** `addPost` twice is `addPost` once. */
  lemma AddIdempotent(s: PostState, p: Post)
    ensures Add(Add(s, p), p) == Add(s, p)
  {
    Mirror.AddFrontIdempotent(s.posts, p, PostId);
  }

  /** Every action keeps post ids distinct, provided a wholesale replacement
      brings distinct ids itself. */
  lemma IdsStayDistinct(s: PostState, a: PostAction)
    requires Mirror.UniqueKeys(s.posts, PostId)
    requires a.SetPosts? ==> Mirror.UniqueKeys(a.posts, PostId)
    requires a.FetchFulfilled? ==> Mirror.UniqueKeys(a.fetched, PostId)
    ensures Mirror.UniqueKeys(Reduce(s, a).posts, PostId)
  {
    match a
    case AddPost(p) => Mirror.AddFrontKeepsUnique(s.posts, p, PostId);
    case ModifyPost(p) => Mirror.ReplaceKeepsUnique(s.posts, p, PostId);
    case RemovePost(id) => Mirror.RemoveKeepsUnique(s.posts, id, PostId);
    case _ =>
  }

  /** What a reader sees for one id across a change-feed event: the added or
      modified post, nothing after a removal, and for every other id exactly
      what it saw before. */
  lemma LookupAcrossEvent(s: PostState, a: PostAction, k: string)
    requires a.AddPost? || a.ModifyPost? || a.RemovePost?
    ensures a.AddPost? && !Mirror.HasKey(s.posts, a.post.id, PostId) ==>
      Mirror.Lookup(Reduce(s, a).posts, a.post.id, PostId) == Some(a.post)
    ensures a.ModifyPost? && Mirror.HasKey(s.posts, a.post.id, PostId) ==>
      Mirror.Lookup(Reduce(s, a).posts, a.post.id, PostId) == Some(a.post)
    ensures a.RemovePost? ==> Mirror.Lookup(Reduce(s, a).posts, a.postId, PostId) == None
    ensures k != (if a.RemovePost? then a.postId else a.post.id) ==>
      Mirror.Lookup(Reduce(s, a).posts, k, PostId) == Mirror.Lookup(s.posts, k, PostId)
  {
    match a
    case AddPost(p) => Mirror.LookupAfterAddFront(s.posts, p, PostId, k);
    case ModifyPost(p) => Mirror.LookupAfterReplace(s.posts, p, PostId, k);
    case RemovePost(id) => Mirror.LookupAfterRemove(s.posts, id, PostId, k);
  }
}
