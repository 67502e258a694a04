/**
 * The gallery component: its four state fields, the transitions `fetchImages`
 * makes on them, the choice of what to render and the label of the data
 * source. The request itself is an input: the decoded body of the
 * endpoint's answer, or a failure of the fetch or of the JSON parse.
 */
module ImageGallery {
  import opened Wrappers
  import opened Environment
  import opened AzureBlob
  import opened MockData
  import opened ImagesRoute

  /** What `fetch('/api/images')` followed by `response.json()` yields. */
  datatype FetchOutcome = Received(data: ApiResponse) | NetworkFailure

  const FailedToFetchImages := "Failed to fetch images"
  const NetworkErrorOccurred := "Network error occurred while fetching images"
  const UnknownSource := "unknown"

  const AzureLabel := "Azure Blob Storage"
  const MockLabel := "モックデータ (開発用)"
  const MockFallbackLabel := "モックデータ (Azure接続エラー)"

  /** A snapshot of the component's state: `images`, `loading`, `error` (null is `None`), `dataSource`. */
  datatype GalleryState = GalleryState(images: seq<ImageRecord>, loading: bool, error: Option<string>, dataSource: string)

  const InitialState := GalleryState([], true, None, "")

  /** The component stores no blank error: `error` is null or a non-empty text. */
  predicate WellFormed(s: GalleryState)
  {
    s.error != Some("")
  }

  /** The synchronous start of `fetchImages`: loading on, error cleared. */
  function Began(s: GalleryState): (r: GalleryState)
    ensures r.loading && r.error == None
    ensures r.images == s.images && r.dataSource == s.dataSource
  {
    s.(loading := true, error := None)
  }

  /**
   * The end of `fetchImages`, once the request has settled. Loading is off on
   * every path. A successful body with images replaces the images and the
   * source tag; any other body, or a failed request, records an error and
   * leaves the images and the source tag as they were.
   */
  function Settled(s: GalleryState, outcome: FetchOutcome): (r: GalleryState)
    ensures !r.loading
    ensures WellFormed(s) ==> WellFormed(r)
    ensures r.images == s.images || (outcome.Received? && Some(r.images) == outcome.data.images)
    ensures r.error == s.error || r.images == s.images
    ensures outcome.Received? && outcome.data.success && outcome.data.images.Some? ==>
      && r.images == outcome.data.images.value
      && r.error == s.error
      && r.dataSource == (if Truthy(outcome.data.source) then outcome.data.source.value else UnknownSource)
    ensures outcome.Received? && !(outcome.data.success && outcome.data.images.Some?) ==>
      && r.error == Some(if Truthy(outcome.data.error) then outcome.data.error.value else FailedToFetchImages)
      && r.images == s.images && r.dataSource == s.dataSource
    ensures outcome.NetworkFailure? ==>
      r.error == Some(NetworkErrorOccurred) && r.images == s.images && r.dataSource == s.dataSource
  {
    match outcome
    case NetworkFailure => s.(loading := false, error := Some(NetworkErrorOccurred))
    case Received(data) =>
      if data.success && data.images.Some? then
        s.(loading := false, images := data.images.value,
           dataSource := if Truthy(data.source) then data.source.value else UnknownSource)
      else
        s.(loading := false, error := Some(if Truthy(data.error) then data.error.value else FailedToFetchImages))
  }

  /** The human-readable name of a source tag; unknown tags are shown as they are. */
  function SourceLabel(tag: string): (shown: string)
    ensures tag == SourceAzure ==> shown == AzureLabel
    ensures tag == SourceMock ==> shown == MockLabel
    ensures tag == SourceMockFallback ==> shown == MockFallbackLabel
    ensures tag != SourceAzure && tag != SourceMock && tag != SourceMockFallback ==> shown == tag
    ensures shown == "" <==> tag == ""
  {
    if tag == SourceAzure then AzureLabel
    else if tag == SourceMock then MockLabel
    else if tag == SourceMockFallback then MockFallbackLabel
    else tag
  }

  /** The one thing the component renders. */
  datatype View =
    | LoadingView
    | ErrorView(message: string)
    | EmptyView
    | GridView(images: seq<ImageRecord>, sourceLabel: Option<string>)

  /**
   * The render's precedence: loading first, then a (non-empty) error, then an
   * empty list, then the grid, whose source line appears only when the source
   * tag is non-empty.
   */
  function SelectView(s: GalleryState): (v: View)
    ensures v == LoadingView <==> s.loading
    ensures v.ErrorView? <==> !s.loading && s.error.Some? && s.error.value != ""
    ensures v.ErrorView? ==> v.message == s.error.value
    ensures v == EmptyView <==> !s.loading && (s.error.None? || s.error.value == "") && |s.images| == 0
    ensures v.GridView? <==> !s.loading && (s.error.None? || s.error.value == "") && |s.images| > 0
    ensures v.GridView? ==> v.images == s.images
    ensures v.GridView? ==> (v.sourceLabel.Some? <==> s.dataSource != "")
    ensures v.GridView? && s.dataSource != "" ==> v.sourceLabel == Some(SourceLabel(s.dataSource))
  {
    if s.loading then LoadingView
    else if s.error.Some? && s.error.value != "" then ErrorView(s.error.value)
    else if |s.images| == 0 then EmptyView
    else GridView(s.images, if s.dataSource != "" then Some(SourceLabel(s.dataSource)) else None)
  }

  /** A finished fetch never leaves the spinner up. */
  lemma SettledNeverLoading(s: GalleryState, outcome: FetchOutcome)
    ensures SelectView(Settled(s, outcome)) != LoadingView
  {
  }

  /** A failed request shows the network message and keeps the images loaded before it. */
  lemma NetworkFailureShown(s: GalleryState)
    ensures SelectView(Settled(Began(s), NetworkFailure)) == ErrorView(NetworkErrorOccurred)
    ensures Settled(Began(s), NetworkFailure).images == s.images
  {
  }

  /** The gallery's view after one fetch against the endpoint. */
  function ViewAfterFetch(s: GalleryState, env: Env, listing: seq<ListingStep>): View
  {
    SelectView(Settled(Began(s), Received(Get(env, listing).body)))
  }

  /** In development without storage configuration the gallery shows the placeholders labelled as mock data. */
  lemma MockModeShowsPlaceholders(s: GalleryState, env: Env, listing: seq<ListingStep>)
    requires ServesMockOnly(env)
    ensures ViewAfterFetch(s, env, listing) == GridView(MockImageData, Some(MockLabel))
  {
  }

  /** In development the gallery never shows an error: it shows images, or the empty listing. */
  lemma DevelopmentNeverShowsError(s: GalleryState, env: Env, listing: seq<ListingStep>)
    requires IsDevelopment(env)
    ensures ViewAfterFetch(s, env, listing).GridView? || ViewAfterFetch(s, env, listing) == EmptyView
  {
  }

  /** A failed fallback in development shows the placeholders labelled as a connection error. */
  lemma FallbackShowsPlaceholders(s: GalleryState, env: Env, listing: seq<ListingStep>)
    requires IsDevelopment(env) && IsAzureConfigured(env)
    requires ListBlobsResult(env, listing).Failure?
    ensures ViewAfterFetch(s, env, listing) == GridView(MockImageData, Some(MockFallbackLabel))
  {
  }

  /**
   * Outside development a storage failure is shown with the endpoint's generic
   * message; its diagnostic details never reach the screen.
   */
  lemma ProductionFailureShowsGenericMessage(s: GalleryState, env: Env, listing: seq<ListingStep>)
    requires !IsDevelopment(env)
    requires ListBlobsResult(env, listing).Failure?
    ensures ViewAfterFetch(s, env, listing) == ErrorView(FailedToFetchFromStorage)
  {
  }

  /** Images from storage are shown in listing order, labelled as coming from storage. */
  lemma StorageImagesShown(s: GalleryState, env: Env, listing: seq<ListingStep>)
    requires !ServesMockOnly(env)
    requires ListBlobsResult(env, listing).Success? && ListBlobsResult(env, listing).value != []
    ensures ViewAfterFetch(s, env, listing) == GridView(ListBlobsResult(env, listing).value, Some(AzureLabel))
  {
  }

  /** The component's state, held in four fields that `fetchImages` sets one by one. */
  class Gallery {
    var images: seq<ImageRecord>
    var loading: bool
    var error: Option<string>
    var dataSource: string

    function State(): GalleryState
      reads this
    {
      GalleryState(images, loading, error, dataSource)
    }

    ghost predicate Valid()
      reads this
    {
      WellFormed(State())
    }

    /** The first render: no images, loading, no error, no source. */
    constructor ()
      ensures State() == InitialState
      ensures Valid()
    {
      images := [];
      loading := true;
      error := None;
      dataSource := "";
    }

    /** Before the request is sent: loading on, error cleared. */
    method BeginFetch()
      modifies this
      ensures State() == Began(old(State()))
      ensures Valid()
    {
      loading := true;
      error := None;
    }

    /** The updates made once the request has settled; loading ends on every path. */
    method SettleFetch(outcome: FetchOutcome)
      requires Valid()
      modifies this
      ensures State() == Settled(old(State()), outcome)
      ensures Valid()
    {
      match outcome {
        case NetworkFailure =>
          error := Some(NetworkErrorOccurred);
        case Received(data) =>
          if data.success && data.images.Some? {
            images := data.images.value;
            dataSource := if Truthy(data.source) then data.source.value else UnknownSource;
          } else {
            error := Some(if Truthy(data.error) then data.error.value else FailedToFetchImages);
          }
      }
      loading := false;
    }

    /** `fetchImages`, with the request's outcome given. */
    method FetchImages(outcome: FetchOutcome)
      modifies this
      ensures State() == Settled(Began(old(State())), outcome)
      ensures Valid()
      ensures !loading
    {
      BeginFetch();
      SettleFetch(outcome);
    }

    /** What the component renders now. */
    function CurrentView(): (v: View)
      requires Valid()
      reads this
      ensures v == LoadingView <==> loading
      ensures v.ErrorView? <==> !loading && error.Some?
      ensures v.ErrorView? ==> v.message == error.value
      ensures v == EmptyView <==> !loading && error.None? && images == []
      ensures v.GridView? ==> v.images == images && |images| > 0
    {
      SelectView(State())
    }
  }
}
