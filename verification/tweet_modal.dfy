/** The compose dialog: the character counter, when the send button is
    enabled, the post it creates, and when it closes. */
module TweetModal {
  import opened Common
  import opened Records
  import PostSlice
  import Toast

  /** The text area's `maxLength`, in UTF-16 code units. */
  const BodyLimit: nat := 140

  /** The counter beside the button: how many code units are left. */
  function Remaining(body: string): (n: int)
    ensures n <= BodyLimit
    ensures n == BodyLimit <==> body == ""
    ensures JsLength(body) <= BodyLimit ==> 0 <= n
    ensures n + JsLength(body) == BodyLimit
  {
    BodyLimit - JsLength(body)
  }

  /** The counter is shown, and the button enabled, exactly when the body is
      non-empty. A body of spaces counts as non-empty. */
  predicate HasBody(body: string) {
    body != ""
  }

  /** An enabled button always leaves fewer than the full budget. */
  lemma EnabledSpendsBudget(body: string)
    ensures HasBody(body) <==> Remaining(body) < BodyLimit
    ensures HasBody(" ")
  {
  }

  /** The post request: the text as typed and the viewer's username, which is
      `undefined` while the viewer is not loaded. No image is sent. */
  datatype TweetPayload = TweetPayload(body: string, owner: Option<string>)

  function Payload(body: string, me: Option<User>): (p: TweetPayload)
    ensures p.body == body
    ensures p.owner == NameOf(me)
  {
    TweetPayload(body, NameOf(me))
  }

  /** The request the create command receives, once the owner is known. */
  function AsRequest(p: TweetPayload): (r: Option<PostSlice.PostRequest>)
    ensures r.Some? <==> p.owner.Some?
    ensures r.Some? ==> r.value == PostSlice.PostRequest(p.body, p.owner.value, None)
  {
    if p.owner.Some? then Some(PostSlice.PostRequest(p.body, p.owner.value, None)) else None
  }

  /** After the create command settles: the dialog closes on success and shows
      the error otherwise. */
  datatype AfterSend = AfterSend(closed: bool, toast: Option<Toast.ToastOptions>)

  function Settle(created: Outcome<Post>): (r: AfterSend)
    ensures r.closed <==> created.Fulfilled?
    ensures r.toast.Some? <==> created.Rejected?
    ensures created.Rejected? ==> r.toast == Some(Toast.Notice(Some("error"), created.reason))
  {
    if created.Fulfilled? then AfterSend(true, None)
    else AfterSend(false, Some(Toast.Notice(Some("error"), created.reason)))
  }

  /** A signed-in viewer's post is created exactly as typed, owned by them,
      without likes or image; the dialog closes exactly when it is created. */
  lemma SendCreatesOwnPost(body: string, me: User, inserted: Outcome<string>, now: string)
    ensures var req := AsRequest(Payload(body, Some(me)));
      req.Some?
      && var created := PostSlice.CreatePostThunk(req.value, inserted, now);
      && (created.Fulfilled? ==> created.value.body == body && created.value.owner == me.username
                                 && created.value.likes == [] && created.value.imageUrl.None?)
      && (Settle(created).closed <==> inserted.Fulfilled?)
  {
  }
}
