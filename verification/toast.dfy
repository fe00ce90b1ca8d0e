/** `showToast`: the one place every screen turns its notification options
    into the options the toast library receives, filling in defaults. */
module Toast {
  import opened Common

  /** What a caller passes; every field may be left out. */
  datatype ToastOptions = ToastOptions(
    title: Option<string>,
    description: Option<string>,
    status: Option<string>,
    duration: Option<int>,
    position: Option<string>)

  /** What the toast library receives. */
  datatype Shown = Shown(
    title: Option<string>,
    description: Option<string>,
    status: string,
    duration: int,
    isClosable: bool,
    position: string)

  const DefaultStatus: string := "success"
  const DefaultDuration: int := 2000
  const DefaultPosition: string := "bottom-right"

  /** JavaScript truthiness of an optional number: `undefined` and `0` are
      falsy. */
  predicate TruthyNumber(n: Option<int>) {
    n.Some? && n.value != 0
  }

  /** `showToast(ctx, options)`: a falsy status, duration or position is
      replaced by its default; title and description pass through. */
  function Show(o: ToastOptions): (r: Shown)
    ensures r.title == o.title && r.description == o.description
    ensures r.isClosable
    ensures r.status != "" && r.duration != 0 && r.position != ""
    ensures Truthy(o.status) ==> r.status == o.status.value
    ensures TruthyNumber(o.duration) ==> r.duration == o.duration.value
    ensures Truthy(o.position) ==> r.position == o.position.value
    ensures !Truthy(o.status) ==> r.status == DefaultStatus
    ensures !TruthyNumber(o.duration) ==> r.duration == DefaultDuration
    ensures !Truthy(o.position) ==> r.position == DefaultPosition
  {
    Shown(
      o.title,
      o.description,
      if Truthy(o.status) then o.status.value else DefaultStatus,
      if TruthyNumber(o.duration) then o.duration.value else DefaultDuration,
      true,
      if Truthy(o.position) then o.position.value else DefaultPosition)
  }

  /** The options that reproduce a shown toast. */
  function AsOptions(t: Shown): ToastOptions {
    ToastOptions(t.title, t.description, Some(t.status), Some(t.duration), Some(t.position))
  }

  /** Options with only a description and perhaps a status: the shape every
      screen of the client uses. */
  function Notice(status: Option<string>, description: string): ToastOptions {
    ToastOptions(None, Some(description), status, None, None)
  }

  /** Defaulting is idempotent: showing what was shown changes nothing. */
  lemma ShowIdempotent(o: ToastOptions)
    ensures Show(AsOptions(Show(o))) == Show(o)
  {
  }

  /** Exactly the falsy values are replaced: a field keeps its value if and
      only if the value was truthy or already the default. */
  lemma DefaultsOnlyFalsy(o: ToastOptions)
    ensures Show(o).status == DefaultStatus <==> !Truthy(o.status) || o.status.value == DefaultStatus
    ensures Show(o).duration == DefaultDuration <==> !TruthyNumber(o.duration) || o.duration.value == DefaultDuration
    ensures Show(o).position == DefaultPosition <==> !Truthy(o.position) || o.position.value == DefaultPosition
    ensures o.duration == Some(0) ==> Show(o).duration == DefaultDuration
  {
  }
}
