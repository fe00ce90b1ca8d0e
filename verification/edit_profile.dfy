/** The edit-profile dialog: its two form rules, the size rule for a picked
    picture, and the submit sequence that uploads the chosen pictures one
    after the other before sending the profile update. */
module EditProfile {
  import opened Common
  import Toast

  /** The registered form fields; the picture inputs are not part of them. */
  datatype ProfileForm = ProfileForm(name: string, bio: string)

  const MaxBio: nat := 160

  /** One mebibyte: the largest picture accepted. */
  const MaxImageSize: nat := 1 * 1024 * 1024

  function NameError(f: ProfileForm): (e: Option<string>)
    ensures e.None? <==> f.name != ""
  {
    if f.name == "" then Some("Name is required") else None
  }

  function BioError(f: ProfileForm): (e: Option<string>)
    ensures e.None? <==> JsLength(f.bio) <= MaxBio
  {
    if JsLength(f.bio) > MaxBio then Some("Bio can't be more than 160 characters") else None
  }

  /** The form submits only when both rules pass. */
  predicate Valid(f: ProfileForm) {
    NameError(f).None? && BioError(f).None?
  }

  /** A bio of 160 characters from the Basic Multilingual Plane passes; one
      character outside it counts twice and can push it over. */
  lemma BioLimitInCodeUnits(f: ProfileForm)
    ensures (forall i :: 0 <= i < |f.bio| ==> f.bio[i] as int < 0x1_0000) ==> (BioError(f).None? <==> |f.bio| <= MaxBio)
    ensures |f.bio| > MaxBio ==> BioError(f).Some?
  {
  }

  /** What picking a picture of `size` bytes does: a picture over the limit is
      dropped with an error toast; any other stays selected. */
  datatype Pick = Pick(selected: bool, toast: Option<Toast.ToastOptions>)

  function PickImage(size: nat): (r: Pick)
    ensures r.selected <==> size <= MaxImageSize
    ensures r.toast.Some? <==> !r.selected
    ensures r.toast.Some? ==> r.toast.value.status == Some("error")
  {
    if size > MaxImageSize then Pick(false, Some(Toast.Notice(Some("error"), "Image size is too large, max size is 1mb")))
    else Pick(true, None)
  }

  /** Exactly one mebibyte is accepted; one byte more is not. */
  lemma LimitIsInclusive()
    ensures PickImage(1048576).selected && !PickImage(1048577).selected
  {
  }

  /** The storage folders the pictures are uploaded to. */
  datatype Folder = CoverPics | ProfilePics

  /** The update sent to the profile command: the form fields, plus a URL for
      each picture uploaded. An absent URL means the key is not sent. */
  datatype Updates = Updates(name: string, bio: string, coverPicUrl: Option<string>, profilePicUrl: Option<string>)

  /** One submit: the uploads started, in order; the update dispatched, if the
      uploads got that far; whether the dialog closed; the toast shown. */
  datatype SubmitRun = SubmitRun(uploads: seq<Folder>, sent: Option<Updates>, closed: bool, toast: Option<Toast.ToastOptions>)

  /** Submitting, given how each chosen picture's upload ends (`None`: no
      picture chosen) and how the profile command settles. A failed upload
      abandons the submit: nothing is sent, the dialog stays open and no toast
      appears. */
  function Submit(f: ProfileForm, cover: Option<Outcome<string>>, profile: Option<Outcome<string>>, update: Outcome<()>): (r: SubmitRun)
    ensures r.uploads == (if cover.Some? then [CoverPics] else []) +
      (if profile.Some? && !(cover.Some? && cover.value.Rejected?) then [ProfilePics] else [])
    ensures r.sent.Some? <==> !(cover.Some? && cover.value.Rejected?) && !(profile.Some? && profile.value.Rejected?)
    ensures r.sent.Some? ==> r.sent.value.name == f.name && r.sent.value.bio == f.bio
    ensures r.sent.Some? ==> (r.sent.value.coverPicUrl.Some? <==> cover.Some?)
    ensures r.sent.Some? ==> (r.sent.value.profilePicUrl.Some? <==> profile.Some?)
    ensures r.sent.Some? && cover.Some? ==> r.sent.value.coverPicUrl == Some(cover.value.value)
    ensures r.sent.Some? && profile.Some? ==> r.sent.value.profilePicUrl == Some(profile.value.value)
    ensures r.closed <==> r.sent.Some? && update.Fulfilled?
    ensures r.toast.Some? <==> r.sent.Some?
    ensures r.sent.Some? && update.Rejected? ==> r.toast == Some(Toast.Notice(Some("error"), "Error updating profile"))
    ensures r.closed ==> r.toast == Some(Toast.Notice(None, "Profile updated!"))
  {
    var u0 := Updates(f.name, f.bio, None, None);
    if cover.Some? && cover.value.Rejected? then SubmitRun([CoverPics], None, false, None)
    else
      var u1 := if cover.Some? then u0.(coverPicUrl := Some(cover.value.value)) else u0;
      var done := if cover.Some? then [CoverPics] else [];
      if profile.Some? && profile.value.Rejected? then SubmitRun(done + [ProfilePics], None, false, None)
      else
        var u2 := if profile.Some? then u1.(profilePicUrl := Some(profile.value.value)) else u1;
        var ups := done + (if profile.Some? then [ProfilePics] else []);
        if update.Rejected? then SubmitRun(ups, Some(u2), false, Some(Toast.Notice(Some("error"), "Error updating profile")))
        else SubmitRun(ups, Some(u2), true, Some(Toast.Notice(None, "Profile updated!")))
  }

  /** With both pictures chosen, the cover is uploaded first, and the profile
      picture is uploaded only once the cover upload succeeded. */
  lemma CoverBeforeProfile(f: ProfileForm, cover: Outcome<string>, profile: Outcome<string>, update: Outcome<()>)
    ensures var r := Submit(f, Some(cover), Some(profile), update);
      |r.uploads| >= 1 && r.uploads[0] == CoverPics
      && (ProfilePics in r.uploads <==> cover.Fulfilled?)
  {
  }

  /** The dialog closes exactly when everything succeeded, and then the update
      carries every picture chosen and nothing else changed from the form. */
  lemma ClosesOnlyOnSuccess(f: ProfileForm, cover: Option<Outcome<string>>, profile: Option<Outcome<string>>, update: Outcome<()>)
    ensures var r := Submit(f, cover, profile, update);
      r.closed <==> (cover.None? || cover.value.Fulfilled?) && (profile.None? || profile.value.Fulfilled?) && update.Fulfilled?
  {
  }

  /** Submitting as the dialog is written: the auth slice exports no
      `updateProfile`, so building the update command throws once the
      uploads are done. The uploads happen as in `Submit`, but nothing is
      sent, the dialog stays open and no toast appears. */
  function SubmitAsWritten(f: ProfileForm, cover: Option<Outcome<string>>, profile: Option<Outcome<string>>): (r: SubmitRun)
    ensures r.uploads == (if cover.Some? then [CoverPics] else []) +
      (if profile.Some? && !(cover.Some? && cover.value.Rejected?) then [ProfilePics] else [])
    ensures r.sent.None? && !r.closed && r.toast.None?
  {
    var uploads := Submit(f, cover, profile, Fulfilled(())).uploads;
    SubmitRun(uploads, None, false, None)
  }

  /** Whatever the uploads and the update would do, the dialog as written
      never closes: a submit whose uploads all succeed uploads the same
      pictures as the intended one but leaves them unreferenced, where the
      intended submit sends them and closes with 'Profile updated!'. */
  lemma AsWrittenStrandsUploads(f: ProfileForm, cover: Option<Outcome<string>>, profile: Option<Outcome<string>>)
    requires cover.None? || cover.value.Fulfilled?
    requires profile.None? || profile.value.Fulfilled?
    ensures var w := SubmitAsWritten(f, cover, profile);
      var r := Submit(f, cover, profile, Fulfilled(()));
      w.uploads == r.uploads && w.sent.None? && !w.closed
      && r.sent.Some? && r.closed && r.toast == Some(Toast.Notice(None, "Profile updated!"))
  {
  }
}
