/** The two entities the client mirrors, as the documents it writes them, and
    the JavaScript reads the screens make of the signed-in user. */
module Records {
  import opened Common
  import Mirror

  /** A post document read back as `{ id: doc.id, ...doc.data() }`. */
  datatype Post = Post(
    id: string,
    body: string,
    imageUrl: Option<string>,
    likes: seq<string>,
    owner: string,
    createdAt: string)

  /** A user document read back as `{ id: doc.id, ...doc.data() }`. The id is the
      authentication uid; `followers` and `following` hold usernames. */
  datatype User = User(
    id: string,
    name: string,
    username: string,
    email: string,
    bio: Option<string>,
    profilePicUrl: Option<string>,
    coverPicUrl: Option<string>,
    following: seq<string>,
    followers: seq<string>,
    createdAt: string)

  /** The id a mirror keys posts by. */
  function PostId(p: Post): string {
    p.id
  }

  /** The id a mirror keys users by. */
  function UserId(u: User): string {
    u.id
  }

  /** `currentUser?.username`: no username while the signed-in user is not
      loaded. */
  function NameOf(me: Option<User>): Option<string> {
    if me.Some? then Some(me.value.username) else None
  }

  /** `user?.id`. */
  function IdOf(u: Option<User>): Option<string> {
    if u.Some? then Some(u.value.id) else None
  }

  /** `names.includes(name)` where `name` may be `undefined`, which no list of
      usernames contains. */
  predicate Includes(names: seq<string>, name: Option<string>) {
    name.Some? && name.value in names
  }

  /** The username a lookup by name reads. */
  function UserName(u: User): string {
    u.username
  }

  /** `users.find((u) => u.username === name)`: the first user with that
      username, as the profile, explore and post screens look people up. */
  function UserNamed(users: seq<User>, name: string): (r: Option<User>)
    ensures r.None? <==> forall i :: 0 <= i < |users| ==> users[i].username != name
    ensures r.Some? ==> r.value.username == name && r.value in users
    ensures r.Some? ==> exists i :: Mirror.FirstWithKey(users, name, UserName, i) && users[i] == r.value
  {
    Mirror.Lookup(users, name, UserName)
  }
}
