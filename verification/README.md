# Qwitter client state, in Dafny

Qwitter is a Twitter-like web client. Its screens read from a Redux store that
mirrors two remote collections, `posts` and `users`, plus an auth slice for the
signed-in user. This project models the client's local state logic as pure
functions over immutable records and sequences:

- the posts and users reducers, which keep an ordered list keyed by id;
- the follow and unfollow commands. Each is two separate writes to the remote
  `users` collection, modelled as a map from document id to user;
- the auth reducer and the `register`/`login` thunks, with their fixed error
  messages;
- the sign-in/sign-up form rules and payloads;
- the derived views and decision rules of the home, explore and profile
  screens, the suggestion panel, the post card, the user card, the
  edit-profile dialog, the compose dialog and the toast helper.

Remote calls are not modelled as I/O. Each call that the modelled code awaits
becomes a parameter saying how it settled (`Outcome<T>`: `Fulfilled(value)` or
`Rejected(reason)`).

JavaScript details that matter are modelled explicitly:

- `.length` counts UTF-16 code units (`Common.JsLength`).
- `.trim()` strips the ECMAScript whitespace set (`Common.Trim`).
- `undefined`, `null` and `''` are falsy (`Common.Truthy`).
- `arr.includes(undefined)` is false (`Records.Includes`).
- The signed-in user is absent until loaded (`Option<User>`). `me?.username`
  and `me?.id` are `Records.NameOf` and `Records.IdOf`.

Modules follow the source files:

| module | source |
|---|---|
| `Common`, `Seqs` | JavaScript primitives and the `Array` methods used |
| `Mirror` | the keyed-list operations shared by both entity slices |
| `Records` | the post and user documents |
| `Firestore` | `arrayUnion` / `arrayRemove` |
| `PostSlice`, `UserSlice`, `AuthSlice` | `src/store/*.js` |
| `AuthForm` | `src/components/AuthModal.jsx` |
| `HomePage`, `ExplorePage`, `ProfilePage` | `src/routes/*.jsx` |
| `SideBar`, `PostCard`, `UserDetail`, `EditProfile`, `TweetModal` | `src/components/*.jsx` |
| `Toast` | `src/utils/index.js` |

## Model

| member | source | states |
|---|---|---|
| Common.JsLength | src/components/TweetModal.jsx:95 | A string's JavaScript length lies between its character count and twice that. It equals the character count exactly when every character is in the Basic Multilingual Plane. |
| Common.Trim | src/components/AuthModal.jsx:62-64 | The trimmed value is the middle slice of the input. Everything around it is whitespace and its ends are not. It is empty exactly when the input is all whitespace. |
| Common.TrimIdempotent | src/components/AuthModal.jsx:105-111 | Trimming twice is the same as trimming once. |
| Seqs.Filter | src/routes/HomePage.jsx:64-68 | `filter` keeps every element satisfying the predicate, with as many copies as the input has, and no other element. They stay in their original relative order (a subsequence). If every element passes, the list is unchanged. |
| Seqs.FindIndex | src/store/postSlice.js:150 | `findIndex` gives -1 exactly when no element matches. Otherwise it gives the first matching index. |
| Seqs.Find | src/routes/ProfilePage.jsx:55 | `find` gives nothing exactly when no element matches. Otherwise it gives the element at the first matching index. |
| Seqs.Take | src/components/SideBar.jsx:124-125 | `slice(0, n)` keeps the first `min(n, length)` elements unchanged. |
| Seqs.FilterDisjointFit | src/routes/ExplorePage.jsx:66-72 | Two filters whose predicates exclude each other keep at most as many elements together as the list has. |
| Mirror.Lookup | src/store/postSlice.js:159 | Finding by id gives nothing exactly when no record has the id. Otherwise it gives the first record with that id. |
| Mirror.AddFront | src/store/postSlice.js:158-164 | The record goes to the front if and only if its id is absent. Otherwise the list is unchanged. |
| Mirror.Replace | src/store/postSlice.js:148-152 | Length and every position's id are kept. A known id replaces exactly its first occurrence. An unknown id leaves the list unchanged. |
| Mirror.Remove | src/store/postSlice.js:153-157 | No record with the id remains. Every other record is kept with all its copies, in order. An absent id changes nothing. |
| Mirror.AddFrontIdempotent | src/store/postSlice.js:158-164 | Adding the same record twice is the same as adding it once. |
| Mirror.AddFrontKeepsUnique | src/store/postSlice.js:158-164 | Insertion keeps ids pairwise distinct. |
| Mirror.SubseqKeepsUnique | src/store/postSlice.js:153-157 | A subsequence of a list with distinct ids has distinct ids. |
| Mirror.RemoveKeepsUnique | src/store/postSlice.js:153-157 | Removal keeps ids pairwise distinct. |
| Mirror.LookupAfterAddFront | src/store/postSlice.js:158-164 | After an insertion, the new id reads as the new record. Every other id reads as before. |
| Mirror.LookupAfterReplace | src/store/postSlice.js:148-152 | After a replacement, the id reads as the new record. Every other id reads as before. |
| Mirror.LookupAfterRemove | src/store/postSlice.js:153-157 | After a removal, the id reads as absent. Every other id reads as before. |
| Mirror.LookupUnfold | src/store/postSlice.js:159 | A lookup answers from the head if its id matches, and from the tail otherwise. |
| Firestore.ArrayUnion | src/store/userSlice.js:48-50 | Set-add: members are the old ones plus the element. An absent element is appended at the end, and an element already present changes nothing. |
| Firestore.ArrayRemove | src/store/userSlice.js:67-69 | Set-remove: every copy of the element goes, and every other element keeps all its copies, in order. An absent element changes nothing. |
| Firestore.UnionIdempotent | src/store/userSlice.js:48-50 | A repeated union of the same element changes nothing. |
| Firestore.RemoveUndoesUnion | src/store/userSlice.js:48-72 | Removing a name that a union has just added restores the array exactly. |
| PostSlice.NewPost | src/store/postSlice.js:69-75 | A created post has no likes. A falsy image URL is stored as null. Body and owner are taken from the request, the id from the backend. |
| PostSlice.CreatePostThunk | src/store/postSlice.js:64-85 | `createPost` is fulfilled exactly when the insertion succeeds, with that id and no likes. Otherwise it rejects with the insertion's message. |
| PostSlice.Add | src/store/postSlice.js:158-164 | `addPost` leaves the state unchanged if the id is present. Otherwise it prepends the post and clears `isLoading`. |
| PostSlice.Modify | src/store/postSlice.js:148-152 | `modifyPost` replaces the first post with the id in place. Length, error and loading are untouched. An unknown id changes nothing. |
| PostSlice.Remove | src/store/postSlice.js:153-157 | `removePost` drops every post with the id, keeps the rest in order, and is a no-op for an absent id. |
| PostSlice.Reduce | src/store/postSlice.js:144-236 | Each action's effect: bulk replace and fetch end loading; reset gives empty, no error and loading; command pending/fulfilled leave the state unchanged; rejections only set the error. |
| PostSlice.AddIdempotent | src/store/postSlice.js:158-164 | `addPost` twice equals `addPost` once. |
| PostSlice.IdsStayDistinct | src/store/postSlice.js:148-164 | Every action keeps post ids distinct, given that a bulk replacement brings distinct ids itself. |
| PostSlice.LookupAcrossEvent | src/store/postSlice.js:148-164 | Across a change-feed event, the event's id reads as the new post (or absent after a removal). Every other id reads as before. |
| UserSlice.Add | src/store/userSlice.js:96-102 | `addUser` leaves the state unchanged if the id is present. Otherwise it prepends the user and clears `isLoading`. |
| UserSlice.Modify | src/store/userSlice.js:103-107 | `modifyUser` replaces the first user with the id in place. An unknown id changes nothing. |
| UserSlice.Remove | src/store/userSlice.js:108-112 | `removeUser` drops every user with the id and keeps the rest in order. |
| UserSlice.Reduce | src/store/userSlice.js:91-164 | Each action's effect. Only reset touches `user`: it gives empty, no user, no error and not loading, unlike the posts reset. Fetch pending keeps the error. Follow command pending/fulfilled leave the state unchanged. |
| UserSlice.AddIdempotent | src/store/userSlice.js:96-102 | `addUser` twice equals `addUser` once. |
| UserSlice.IdsStayDistinct | src/store/userSlice.js:96-112 | Every action keeps user ids distinct. |
| UserSlice.CurrentUser | src/store/userSlice.js:199-202 | With nobody signed in, `userSelector` throws exactly when the mirror holds a user, and gives nothing over an empty mirror. Signed in, it gives nothing exactly when no user has the uid, and otherwise the first user that has it. |
| UserSlice.SelectsOwnDocument | src/store/userSlice.js:199-202 | On a mirror with distinct ids, a signed-in user whose document is mirrored is selected as exactly that document. |
| UserSlice.Transformed | src/store/userSlice.js:48-53 | A field transform replaces the named list by its `arrayUnion` or `arrayRemove` and changes nothing else in the document. |
| UserSlice.UpdateDoc | src/store/userSlice.js:48-53 | `updateDoc` applies exactly when the backend accepts and the document exists. |
| UserSlice.ArgsFor | src/components/SideBar.jsx:27-34 | A follow button sends the viewer's id and username, which are defined exactly when a viewer is loaded, together with the target's id and username. |
| UserSlice.AsRequest | src/store/userSlice.js:43-45 | A request can be built exactly when both of the viewer's fields are defined. |
| UserSlice.Dispatch | src/store/userSlice.js:41-79 | With undefined arguments nothing is written and the command rejects. Otherwise the command runs its two writes. Only follow lists ever change. |
| UserSlice.Follow | src/store/userSlice.js:41-59 | `followUser` first set-adds the target to the actor's `following`, then the actor to the target's `followers`; every other name in both lists is kept. No other user's `following` and no other user's `followers` changes, so after a refused second write only the first change is present. It is fulfilled exactly when both writes land. A refused first write changes nothing. A refused second write keeps the first and changes no `followers`. |
| UserSlice.Unfollow | src/store/userSlice.js:61-79 | `unfollowUser` makes the symmetric two set-removals, keeping every other name, in the same order and with the same partial outcome. No list other than the two written ones changes. |
| UserSlice.TransformRoundTrip | src/store/userSlice.js:48-72 | On one document, a removal undoes a union of a name that was absent. |
| UserSlice.UnfollowUndoesFollow | src/store/userSlice.js:41-79 | A fully accepted unfollow right after a first fully accepted follow restores the remote collection exactly. |
| UserSlice.BothWritesRoundTrip | src/store/userSlice.js:48-73 | The map-level core of the round trip, including a self-follow, where all four writes hit one document. |
| UserSlice.FollowReachesMirror | src/store/userSlice.js:48-55 | After a completed follow and its two change-feed events, the mirror shows both halves of the relation. After only the actor's event, the target still reads as before. |
| AuthSlice.Initial | src/store/authSlice.js:18-23 | The initial state has no user, no error and a null loading flag. `isAuthenticated` is the stored flag. |
| AuthSlice.Reduce | src/store/authSlice.js:121-174 | Every pending case sets loading. Login and register fulfilled end loading and clear the error without touching `isAuthenticated`. Loading the user signs in. Logout fulfilled signs out. Rejections set the error. Reset returns the initial state. |
| AuthSlice.LoginNeverSignsIn | src/store/authSlice.js:149-160 | A pending-then-settled login or registration never changes the user or `isAuthenticated`. The error is cleared exactly when it succeeded. |
| AuthSlice.ResetForgets | src/store/authSlice.js:121 | Any history followed by a reset ends in the initial state. |
| AuthSlice.RegisterErrorMessage | src/store/authSlice.js:64-75 | Invalid-email maps to 'Invalid email address', weak-password to 'Password must be at least 6 characters', email-in-use to 'User already exists with this email'. Every other code, and only those, maps to 'Something went wrong'. |
| AuthSlice.LoginErrorMessage | src/store/authSlice.js:96-105 | Invalid-email maps to 'Invalid email address'. User-not-found and wrong-password both, and only they, map to 'Invalid credentials'. Unlisted codes map to 'Something went wrong'. |
| AuthSlice.MessagesSeparate | src/store/authSlice.js:64-105 | The three sign-up codes get three different messages. User-not-found and wrong-password read the same at login. An invalid email reads the same in both thunks. |
| AuthSlice.Stored | src/store/authSlice.js:78-82 | The saved document is the form's record without the password, keyed by the new uid. |
| AuthSlice.RegisterThunk | src/store/authSlice.js:41-87 | A username shorter than 3 rejects with no remote call. A non-zero count rejects as taken. Query errors pass through and sign-up errors are mapped. A save failure gives 'Register unsuccessful!'. It is fulfilled exactly when every step succeeds. |
| AuthSlice.LoginThunk | src/store/authSlice.js:89-107 | `login` is fulfilled exactly when sign-in succeeds. Otherwise it rejects with the mapped message. |
| AuthSlice.Settled | src/store/authSlice.js:137-174 | A thunk that settles successfully dispatches its fulfilled action. One that fails dispatches its rejected action carrying the message as payload. |
| AuthSlice.TakenNeverRegisters | src/store/authSlice.js:45-58 | A taken username never reaches account creation or saving. |
| AuthSlice.RegisterReachesState | src/store/authSlice.js:137-148 | After a registration the auth error is exactly the thunk's message, or none on success. |
| AuthForm.UsernameError | src/components/AuthModal.jsx:62-70 | A username is accepted if and only if its trim is non-empty, at least 3 code units long and alphanumeric. The empty case gives 'Username is required'. |
| AuthForm.PasswordError | src/components/AuthModal.jsx:76-79 | A password is accepted if and only if it is non-empty and at least 6 code units long, untrimmed. |
| AuthForm.EmailError | src/components/AuthModal.jsx:71-75 | An email is accepted if and only if its trim is non-empty and passes the format test. |
| AuthForm.NameError | src/components/AuthModal.jsx:61 | A name is accepted if and only if it is non-empty, untrimmed. |
| AuthForm.LoginPayload | src/components/AuthModal.jsx:88-90 | Login sends the trimmed email and the password as typed. |
| AuthForm.RegisterPayload | src/components/AuthModal.jsx:105-119 | Sign-up trims name, username and email but not the password. It sends no bio or pictures and empty follow lists. |
| AuthForm.FormImpliesThunkCheck | src/components/AuthModal.jsx:62-70 | A sign-up the form accepts always passes `register`'s own username length check. |
| AuthForm.ValidatedIsSent | src/components/AuthModal.jsx:105-112 | The username sent gets the same verdict as the username typed. |
| AuthForm.BlankNameStoredEmpty | src/components/AuthModal.jsx:61-109 | A name of only spaces passes the form and is sent empty. |
| AuthForm.ValidUsernameIsPlain | src/components/AuthModal.jsx:62-70 | For an accepted username, code units and characters agree and there are at least 3. |
| HomePage.Feed | src/routes/HomePage.jsx:64-68 | The timeline holds exactly the posts by the user or by someone they follow, in store order. Every post of the user's own is on it. |
| HomePage.NextFeedAsWritten | src/routes/HomePage.jsx:60-70 | As written, the timeline is recomputed only when a user is known and the post list is non-empty. Otherwise the previous value is kept. |
| HomePage.StaleAfterLastRemoval | src/routes/HomePage.jsx:61 | As written, removing the only post leaves that post on the timeline. |
| HomePage.NextFeed | src/routes/HomePage.jsx:60-70 | Corrected: the timeline is recomputed whenever a user is known. On non-empty lists it agrees with the code as written. |
| HomePage.FeedTracksPosts | src/routes/HomePage.jsx:60-70 | With a known user, the timeline never shows a post the store no longer holds. |
| HomePage.Show | src/routes/HomePage.jsx:72-106 | The skeleton shows exactly while loading. The empty message shows exactly when not loading with an empty timeline. Otherwise the timeline is listed. |
| HomePage.OwnPostNeverEmpty | src/routes/HomePage.jsx:64-96 | Once loaded, a user who has a post never sees the empty message. |
| Records.UserNamed | src/routes/ProfilePage.jsx:55 | The profile (and explore header, and post author) is the first user with the username, or none exactly when nobody has it. |
| ExplorePage.NotFollowing | src/routes/ExplorePage.jsx:66-71 | "Who to follow" holds exactly the users not followed by the username and not carrying it, in store order. |
| ExplorePage.Following | src/routes/ExplorePage.jsx:72 | "Following" holds exactly the users whose followers include the username, in store order. |
| ExplorePage.Followers | src/routes/ExplorePage.jsx:73 | "Followers" holds exactly the users whose following includes the username, in store order. |
| ExplorePage.NextLists | src/routes/ExplorePage.jsx:61-75 | The lists are recomputed only while the store holds users. |
| ExplorePage.TabIndex | src/routes/ExplorePage.jsx:88 | Tab 0 exactly for 'to_follow' and tab 1 exactly for 'followers'. Anything else, including no segment, gives tab 2. |
| ExplorePage.TabRoundTrip | src/routes/ExplorePage.jsx:96-139 | Navigating from a tab and reading the route back selects that tab. |
| ExplorePage.PanelOf | src/routes/ExplorePage.jsx:142-160 | A tab shows cards exactly when its list is non-empty, and the cards are that tab's list in order. |
| ExplorePage.SuggestionsAndFollowingDisjoint | src/routes/ExplorePage.jsx:66-72 | No user is both a suggestion and followed. |
| ExplorePage.SuggestionsAndFollowingFit | src/routes/ExplorePage.jsx:66-72 | Suggestions plus followed users never outnumber the users. |
| ProfilePage.UserPosts | src/routes/ProfilePage.jsx:56 | The profile's posts are exactly those the username wrote, in store order. |
| ProfilePage.LikedPosts | src/routes/ProfilePage.jsx:57 | The liked posts are exactly those whose likes include the username, in store order. |
| ProfilePage.NextProfile | src/routes/ProfilePage.jsx:53-59 | The profile is recomputed only while the user store is non-empty. |
| ProfilePage.CountIsAuthored | src/routes/ProfilePage.jsx:56-63 | Every counted post was written by the profile's user, and the count never exceeds the store. |
| ProfilePage.BannerButton | src/routes/ProfilePage.jsx:217-238 | 'Edit Profile' shows exactly when the profile's id equals the viewer's id (undefined included). Otherwise the follow toggle shows. |
| ProfilePage.Label | src/routes/ProfilePage.jsx:254-256 | The label reads 'Unfollow' exactly when the viewer's own `following` holds the profile's username. |
| ProfilePage.OnClick | src/routes/ProfilePage.jsx:79-111 | A click throws while the profile or the viewer is missing. Otherwise it unfollows exactly when the profile's `followers` holds the viewer's username. |
| ProfilePage.FollowToast | src/routes/ProfilePage.jsx:92-122 | A failed command shows the error. A successful one names the user followed or unfollowed. |
| ProfilePage.LabelMatchesClick | src/routes/ProfilePage.jsx:79-256 | When the store's follow lists are symmetric, the label names the command a click sends. |
| ProfilePage.HalfFollowDiverges | src/routes/ProfilePage.jsx:79-256 | After a follow whose second write failed, the label says 'Unfollow' while a click sends another follow. |
| SideBar.Suggestions | src/components/SideBar.jsx:93-103 | Suggestions are exactly the users lacking the viewer in their followers and not named like the viewer, in store order. With no viewer, everyone is suggested. |
| SideBar.NeverSelfNorFollowed | src/components/SideBar.jsx:96-100 | A suggestion is never the viewer and never lists the viewer as a follower. |
| SideBar.Show | src/components/SideBar.jsx:119-126 | The skeleton shows exactly while loading. 'Empty' shows exactly when loaded with no suggestions. The cards are the first min(5, n) suggestions. |
| SideBar.CardsAreSuggestions | src/components/SideBar.jsx:123-126 | At most five cards show, and each is a suggestion. |
| SideBar.FollowRemovesSuggestion | src/components/SideBar.jsx:26-34 | A card's follow, once both writes are accepted, stops that user from being suggested. |
| PostCard.Author | src/components/Post.jsx:37 | The author is absent exactly when no mirrored user has the post's owner as username. Otherwise it is the first such user. |
| PostCard.AuthorName | src/components/Post.jsx:98 | The author's name is shown when the author is found with a non-empty name. Otherwise '[Deleted User]' is shown. |
| PostCard.OrphanReadsDeleted | src/components/Post.jsx:37-98 | A post whose owner has no user reads '[Deleted User]'. |
| PostCard.OnLikeClick | src/components/Post.jsx:43-69 | A click unlikes exactly when the likes hold the viewer's username, the same predicate that fills the heart. |
| PostCard.AfterLike | src/store/postSlice.js:87-119 | A like appends the username once at the end, and a repeated like changes nothing. An unlike removes every copy of the username, and every other name keeps all its copies in order. Nothing else in the post changes. |
| PostCard.ClickToggles | src/components/Post.jsx:43-142 | Each accepted click flips the heart. A like adds one to the count. Two clicks from unliked restore the post. |
| PostCard.MenuOnlyForOwnPosts | src/components/Post.jsx:148 | The options menu shows exactly on the viewer's own posts, and never without a viewer. |
| UserDetail.OnClick | src/components/UserDetail.jsx:27-71 | A click unfollows exactly when the card's followers hold the viewer's username, with the viewer's and the card's ids and usernames. |
| UserDetail.Label | src/components/UserDetail.jsx:115-117 | 'Unfollow' exactly when the card's followers hold the viewer's username. |
| UserDetail.LabelNamesCommand | src/components/UserDetail.jsx:28-117 | The label always names the command a click sends. |
| UserDetail.AcceptedClickFlipsLabel | src/components/UserDetail.jsx:27-49 | A click whose two writes are accepted flips the label once the card's user is read back. |
| UserDetail.SignedOutClickWritesNothing | src/components/UserDetail.jsx:27-36 | Without a viewer the label is 'Follow' and a click writes nothing. |
| EditProfile.NameError | src/components/EditProfileModal.jsx:46 | The name passes if and only if it is non-empty. |
| EditProfile.BioError | src/components/EditProfileModal.jsx:47 | The bio passes if and only if it has at most 160 code units. |
| EditProfile.BioLimitInCodeUnits | src/components/EditProfileModal.jsx:47 | For Basic Multilingual Plane text the limit is 160 characters. More than 160 characters always fails. |
| EditProfile.PickImage | src/components/EditProfileModal.jsx:150-170 | A picture stays selected exactly when it is at most 1,048,576 bytes. Otherwise it is dropped with an error toast. |
| EditProfile.LimitIsInclusive | src/components/EditProfileModal.jsx:68 | Exactly 1 MiB is accepted; one byte more is not. |
| EditProfile.Submit | src/components/EditProfileModal.jsx:105-139 | The submit as evidently intended, with a profile-update command in place of the undefined `updateProfile`. The cover is uploaded before the profile picture. A URL is added exactly for each picture chosen, and the form fields pass through. A failed upload sends nothing. The dialog closes, with 'Profile updated!', exactly when the update succeeds. A failed update shows 'Error updating profile'. |
| EditProfile.CoverBeforeProfile | src/components/EditProfileModal.jsx:107-125 | With both pictures chosen, the cover upload comes first. The profile upload starts exactly when the cover upload succeeded. |
| EditProfile.ClosesOnlyOnSuccess | src/components/EditProfileModal.jsx:105-139 | The dialog closes exactly when every chosen upload and the update succeed. |
| EditProfile.SubmitAsWritten | src/components/EditProfileModal.jsx:105-129 | As written: the chosen pictures are uploaded in the same order, then calling the undefined `updateProfile` throws. Nothing is sent, the dialog stays open and no toast appears. |
| EditProfile.AsWrittenStrandsUploads | src/components/EditProfileModal.jsx:105-139 | When every upload succeeds, the as-written submit uploads the same pictures as the intended one. It never sends them or closes, while the intended submit sends them and closes with 'Profile updated!'. |
| TweetModal.Remaining | src/components/TweetModal.jsx:95 | The counter is 140 minus the body's code units. It is 140 exactly for an empty body and never negative within the text area's limit. |
| TweetModal.EnabledSpendsBudget | src/components/TweetModal.jsx:129-139 | The button is enabled exactly when the counter is below 140. A body of spaces enables it. |
| TweetModal.Payload | src/components/TweetModal.jsx:47-52 | The post request carries the body as typed and the viewer's username. |
| TweetModal.AsRequest | src/components/TweetModal.jsx:48-54 | The model builds a `createPost` request exactly when the owner is defined, with the body as typed and no image. |
| TweetModal.Settle | src/components/TweetModal.jsx:54-66 | The dialog closes exactly when the command succeeds. Otherwise the error is shown. |
| TweetModal.SendCreatesOwnPost | src/components/TweetModal.jsx:47-66 | A signed-in viewer's post is created as typed, owned by them, with no likes or image. The dialog closes exactly when it is created. |
| Toast.Show | src/utils/index.js:5-12 | A falsy status, duration (including 0) or position gets its default: "success", 2000 or "bottom-right". A truthy one is kept. Title and description pass through. Toasts are always closable. |
| Toast.ShowIdempotent | src/utils/index.js:5-12 | Showing the options of a shown toast changes nothing. |
| Toast.DefaultsOnlyFalsy | src/utils/index.js:8-11 | A field equals its default exactly when it was falsy or already the default. An explicit duration 0 becomes 2000. |

## Left out

- Remote I/O is not modelled: reads, snapshot subscriptions, `addDoc`, `deleteDoc`, `setDoc`, and authentication sign-in, sign-up and sign-out. Each awaited result is a parameter of the function that awaits it. `fetchPosts`, `fetchUsers` and `setCurrentUser` appear only through the actions they dispatch.
- The wiring that subscribes to the collections and dispatches the change-feed reducers is not part of this model; the reducers are modelled directly.
- Picture and post-image upload pipelines, and their progress percentages, are asynchronous callbacks with floating-point ratios. An upload is modelled only by how it ends.
- Date formatting, `URL.createObjectURL`, theme and local-storage writes, routing guards and all layout are not modelled.
- `useEffect` dependencies and `memo` comparators are not modelled. Each effect is the pure function it computes from its inputs.
- Unicode is modelled only as far as code-unit length and the whitespace set of `trim`.
- PostSlice.Modify: a `modifyPost` for an unknown id writes index -1, a stray property rather than an element. It is modelled as leaving the list unchanged. UserSlice.Modify does the same for `modifyUser`.
- PostSlice.Reduce: a rejection stores the action's `error` object. It is modelled as a string. The same holds for UserSlice.Reduce, AuthSlice.Reduce and the toasts that show `res.error`.
- AuthSlice.Initial: the stored `authenticated` value is parsed JSON. Only a boolean or a missing value is modelled.
- AuthForm.EmailError: the email-format regular expression is a parameter `isEmail`. Each field reports the first rule it breaks, in declaration order.
- SideBar.Suggestions: every user document is written with both follow lists, so the case of a user without `followers` (whom the code still suggests) is not modelled.
- EditProfile.Submit: src/store/authSlice.js does not export the `updateProfile` that src/components/EditProfileModal.jsx:36 imports. As written, the call at line 129 throws a TypeError once the uploads finish, or a strict module loader refuses to link the dialog. Nothing is dispatched, the dialog stays open and no toast appears, which `EditProfile.SubmitAsWritten` models. `Submit` models the evidently intended command, whose outcome is a parameter because no such command exists.
- TweetModal.AsRequest: the program dispatches `createPost` even while the owner is `undefined`, and the store refuses that write, which comes back as the error toast. The model stops at an undefined owner and does not model that dispatch or its refusal.
- PostCard.AfterLike: the like and unlike commands are modelled by their assumed set-add and set-remove effect on the post's `likes`. Their remote call, like `deletePost`'s, is not modelled.
- ProfilePage.FollowToast: the error toast shows the rejected action's `error` field, which is a serialized error object. The model shows the rejection's reason string instead. The same holds for TweetModal.Settle and the like button's error toast.
- The `logout` thunk passes the sign-out message through unchanged. It is modelled only through the reducer's logout cases in AuthSlice.Reduce.

Three facts about the code that a reader might not expect:

- A body of only whitespace is not rejected. The compose button is disabled only for an empty raw body (`TweetModal.HasBody`).
- There is no size limit on post images. The only image size rule is the 1 MiB limit in src/components/EditProfileModal.jsx:68.
- Resetting the users slice clears `isLoading`, while resetting the posts slice sets it.

## Findings

| source | as written | input that shows it | evidently intended | confidence | as-written member | corrected member |
|---|---|---|---|---|---|---|
| src/routes/HomePage.jsx:61 | The timeline is recomputed only when the post list is non-empty. | A user's only post is removed, so `posts` becomes `[]`. The timeline still holds the removed post and keeps showing it. | Recompute whenever a user is known, so an empty post list gives an empty timeline. | medium; not executed | HomePage.StaleAfterLastRemoval | HomePage.FeedTracksPosts |
| src/components/EditProfileModal.jsx:129 | The dialog calls `updateProfile`, imported at line 36 from the auth slice, which does not export it, and calls it after the uploads. | Any valid submit, for example a name change with no pictures chosen. The call throws, nothing is saved, and the dialog stays open with no toast. The same happens after uploads, whose pictures are then left unreferenced. | An auth-slice command that writes the updates to the user's document, after which the dialog closes with 'Profile updated!'. | high; not executed | EditProfile.SubmitAsWritten | EditProfile.Submit |
