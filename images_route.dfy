/**
 * The `GET /api/images` endpoint: the fallback policy between the blob
 * resolver and the development placeholders, and the JSON body it answers
 * with. The handler is a function of the environment and of what the
 * storage listing would deliver; the resolver's outcome is only computed in
 * the branches that call it.
 */
module ImagesRoute {
  import opened Wrappers
  import opened Environment
  import opened AzureBlob
  import opened MockData

  /** The JSON body: every field but `success` is optional and depends on the branch. */
  datatype ApiResponse = ApiResponse(
    success: bool,
    images: Option<seq<ImageRecord>>,
    source: Option<string>,
    error: Option<string>,
    details: Option<string>,
    originalError: Option<string>)

  datatype HttpResponse = HttpResponse(status: int, body: ApiResponse)

  const FailedToFetchFromStorage := "Failed to fetch images from Azure Blob Storage"
  const UnknownError := "Unknown error"

  const SourceAzure := "azure"
  const SourceMock := "mock"
  const SourceMockFallback := "mock-fallback"

  /** The diagnostic text of a thrown value: an Error's message, else `Unknown error`. */
  function MessageOf(e: Thrown): (m: string)
    ensures e.ErrorValue? ==> m == e.message
    ensures e.OtherValue? ==> m == UnknownError
  {
    match e
    case ErrorValue(message) => message
    case OtherValue => UnknownError
  }

  function Images(images: seq<ImageRecord>, source: string, originalError: Option<string>): HttpResponse
  {
    HttpResponse(200, ApiResponse(true, Some(images), Some(source), None, None, originalError))
  }

  function Unavailable(details: string): HttpResponse
  {
    HttpResponse(500, ApiResponse(false, None, None, Some(FailedToFetchFromStorage), Some(details), None))
  }

  /** True when the handler answers with placeholders without consulting storage. */
  predicate ServesMockOnly(env: Env)
    ensures ServesMockOnly(env) <==> IsDevelopment(env) && (!Truthy(env.accountName) || !Truthy(env.containerName))
  {
    IsDevelopment(env) && !IsAzureConfigured(env)
  }

  /**
   * The handler. It answers 200 exactly when `success` is set; in development
   * it always succeeds; outside development it never serves placeholders and
   * its `source` is `azure` or absent; whatever images it sends pass the
   * listing's image-extension filter.
   */
  function Get(env: Env, listing: seq<ListingStep>): (r: HttpResponse)
    ensures r.status == 200 || r.status == 500
    ensures r.body.success <==> r.status == 200
    ensures r.body.success <==> r.body.images.Some?
    ensures IsDevelopment(env) ==> r.status == 200
    ensures !IsDevelopment(env) ==> r.body.source == None || r.body.source == Some(SourceAzure)
    ensures !IsDevelopment(env) && r.body.images.Some? ==> r.body.images.value != MockImageData
    ensures r.body.images.Some? ==> forall k :: 0 <= k < |r.body.images.value| ==> IsImageName(r.body.images.value[k].name)
  {
    MockImageDataWellFormed();
    if ServesMockOnly(env) then
      Images(MockImageData, SourceMock, None)
    else
      match ListBlobsResult(env, listing)
      case Success(blobs) =>
        ListingIsNeverMock(blobs, env.accountName.value, ContainerName(env));
        Images(blobs, SourceAzure, None)
      case Failure(e) =>
        if IsDevelopment(env) then Images(MockImageData, SourceMockFallback, Some(MessageOf(e)))
        else Unavailable(MessageOf(e))
  }

  /** Records carrying blob URLs are never the placeholders. */
  lemma ListingIsNeverMock(records: seq<ImageRecord>, account: string, container: string)
    requires forall k :: 0 <= k < |records| ==> records[k].url == BlobUrl(account, container, records[k].name)
    ensures records != MockImageData
  {
    MockIsNotBlobData(account, container);
    assert |records| > 0 ==> records[0].url == BlobUrl(account, container, records[0].name);
  }

  /**
   * In development without storage configuration the answer is the
   * placeholders tagged `mock`, and the listing is never looked at: any two
   * listings give the same answer.
   */
  lemma MockModeSkipsResolver(env: Env, listing: seq<ListingStep>, other: seq<ListingStep>)
    requires IsDevelopment(env) && !IsAzureConfigured(env)
    ensures Get(env, listing) == Get(env, other)
    ensures Get(env, listing) == HttpResponse(200, ApiResponse(true, Some(MockImageData), Some(SourceMock), None, None, None))
  {
  }

  /** Whenever storage is consulted, the answer depends on nothing but the resolver's outcome. */
  lemma ResolverDecides(env: Env, listing: seq<ListingStep>, other: seq<ListingStep>)
    requires !ServesMockOnly(env)
    requires ListBlobsResult(env, listing) == ListBlobsResult(env, other)
    ensures Get(env, listing) == Get(env, other)
  {
  }

  /** A successful listing is answered with exactly its records, tagged `azure`, with status 200. */
  lemma AzureOnSuccess(env: Env, listing: seq<ListingStep>)
    requires !ServesMockOnly(env)
    requires ListBlobsResult(env, listing).Success?
    ensures Get(env, listing) == HttpResponse(200, ApiResponse(true, Some(ListBlobsResult(env, listing).value), Some(SourceAzure), None, None, None))
  {
  }

  /** A failed listing in development falls back to the placeholders, carrying the failure's message. */
  lemma FallbackInDevelopment(env: Env, listing: seq<ListingStep>)
    requires IsDevelopment(env) && IsAzureConfigured(env)
    requires ListBlobsResult(env, listing).Failure?
    ensures Get(env, listing) == HttpResponse(200, ApiResponse(true, Some(MockImageData), Some(SourceMockFallback), None, None,
      Some(MessageOf(ListBlobsResult(env, listing).error))))
  {
  }

  /** A failed listing outside development is a 500 whose details carry the failure's message. */
  lemma FailureOutsideDevelopment(env: Env, listing: seq<ListingStep>)
    requires !IsDevelopment(env)
    requires ListBlobsResult(env, listing).Failure?
    ensures Get(env, listing) == HttpResponse(500, ApiResponse(false, None, None, Some(FailedToFetchFromStorage),
      Some(MessageOf(ListBlobsResult(env, listing).error)), None))
  {
  }

  /**
   * Outside development a missing account name still goes through the
   * resolver, whose guard fails: the answer is the 500 naming the missing
   * variable, whatever the listing.
   */
  lemma MissingAccountOutsideDevelopment(env: Env, listing: seq<ListingStep>)
    requires !IsDevelopment(env) && !Truthy(env.accountName)
    ensures Get(env, listing) == Unavailable(AccountNameRequired)
  {
  }

  /** A broken listing in development falls back with the exact message it broke with. */
  lemma BrokenListingInDevelopment(env: Env, prefix: seq<BlobItem>, message: string)
    requires IsDevelopment(env) && IsAzureConfigured(env)
    ensures var listing := seq(|prefix|, i requires 0 <= i < |prefix| => Item(prefix[i])) + [Broken(ErrorValue(message))];
      Get(env, listing).body.originalError == Some(message) &&
      Get(env, listing).body.source == Some(SourceMockFallback)
  {
    var listing := seq(|prefix|, i requires 0 <= i < |prefix| => Item(prefix[i])) + [Broken(ErrorValue(message))];
    FirstBrokenAppend(listing[..|prefix|], [Broken(ErrorValue(message))]);
    assert listing[..|prefix|] + [Broken(ErrorValue(message))] == listing;
    assert FirstBroken([Broken(ErrorValue(message))]) == Some(ErrorValue(message));
  }

  /** With storage configured, `photo.txt` is dropped and `photo.PNG` is served with its blob URL. */
  lemma OnlyImagesServed(size: Option<int>)
    ensures var env := Env(Some("acct"), Some("pics"), Some("production"));
      var png := BlobItem("photo.PNG", None, size);
      Get(env, [Item(BlobItem("photo.txt", None, None)), Item(png)]).body.images ==
        Some([ImageRecord("photo.PNG", "https://acct.blob.core.windows.net/pics/photo.PNG", None, size)])
  {
    var env := Env(Some("acct"), Some("pics"), Some("production"));
    var png := BlobItem("photo.PNG", None, size);
    var listing := [Item(BlobItem("photo.txt", None, None)), Item(png)];
    MixedListing(env, size);
    AzureOnSuccess(env, listing);
    ExampleBlobUrl();
  }

  /** The URL of `photo.PNG` in container `pics` of account `acct`. */
  lemma ExampleBlobUrl()
    ensures BlobUrl("acct", "pics", "photo.PNG") == "https://acct.blob.core.windows.net/pics/photo.PNG"
  {
  }
}
