# Azure image gallery: resolver, fallback policy and gallery state

A Next.js gallery lists the images of an Azure Blob Storage container and
shows them in a grid. This project models, in Dafny, the logic around the
storage call:

- the **blob resolver** (`src/lib/azure-blob.ts`): the account-name guard in
  front of the storage client, the service endpoint, the container default
  (`images`), the image-extension filter `/\.(jpg|jpeg|png|gif|webp)$/i`, the
  construction of `{name, url, lastModified, size}` records in listing order,
  and the rethrow of any failure without a partial list;
- the **configuration checks and placeholders** (`src/lib/mock-data.ts`):
  `isDevelopment`, `isAzureConfigured` and the two placeholder records;
- the **endpoint's fallback policy** (`src/app/api/images/route.ts`): mock
  data in development without configuration (storage is not consulted),
  storage data tagged `azure` on success, placeholders tagged `mock-fallback`
  with the failure's message on a failure in development, and a 500 with the
  message as `details` on a failure outside development;
- the **gallery component** (`src/components/ImageGallery.tsx`): its four state
  fields as a class, the transitions of `fetchImages`, the render's precedence
  (loading, error, empty, grid) and the source label.

The environment is an explicit record `Env(accountName, containerName,
nodeEnv)` of optional strings instead of `process.env`; JavaScript truthiness of
a value (set and non-empty) is `Truthy`. The storage listing is an input: a
sequence of steps, each a delivered blob or a failure raised by the iteration.
A thrown value is `ErrorValue(message)` or `OtherValue` (anything that is not an
`Error`). The endpoint is a function of the environment and the listing, so
"storage is not consulted" is stated as "the answer is the same for every
listing". The gallery's request is an input too: the decoded body, or a failure
of `fetch` or of the JSON parse.

Files: `wrappers.dfy` (Option, Result), `environment.dfy`, `azure_blob.dfy`,
`mock_data.dfy`, `images_route.dfy`, `image_gallery.dfy`.

Two behaviours of the code worth noting:

- The diagnostic text of a failure is kept only for `Error` values: any other
  thrown value is reported as `Unknown error`
  (`src/app/api/images/route.ts:33` and `:41`; `ImagesRoute.MessageOf`).
- `isAzureConfigured` requires a non-empty container variable
  (`src/lib/mock-data.ts:22-25`), while `listBlobs` defaults the container to
  `images` (`src/lib/azure-blob.ts:26`). So, in development, a named account
  with no container counts as unconfigured and is served mock data, although
  the resolver would work (`MockData.UnsetContainerNotConfigured`).

## Model

| member | source | states |
|---|---|---|
| AzureBlob.GetBlobServiceClient | src/lib/azure-blob.ts:5-20 | fails exactly when the account name is unset or empty, with the message `AZURE_STORAGE_ACCOUNT_NAME environment variable is required`; otherwise the client's endpoint is `https://{account}.blob.core.windows.net` |
| AzureBlob.EndpointDeterminesAccount | src/lib/azure-blob.ts:15 | supporting fact about the endpoint string built there: two accounts never share an endpoint (a property of the concatenation, backing `GetBlobServiceClient`) |
| AzureBlob.ContainerName | src/lib/azure-blob.ts:26 | the container is the configured one when non-empty, otherwise `images`; it is never empty |
| AzureBlob.IsImageName | src/lib/azure-blob.ts:34 | a name that passes is at least four characters long, and its dot sits four characters from the end (three-letter extension) or five (four-letter extension) |
| AzureBlob.ImageNameMeaning | src/lib/azure-blob.ts:34 | a name passes the filter iff it ends with `.` followed by one of jpg, jpeg, png, gif, webp, in any letter case |
| AzureBlob.ImageNameIgnoresCase | src/lib/azure-blob.ts:34 | lower-casing a name never changes whether it passes |
| AzureBlob.ImageNameAnchoredAtEnd | src/lib/azure-blob.ts:34 | only the end of the name matters: any prefix keeps an image name an image name |
| AzureBlob.UpperCaseImageKept | src/lib/azure-blob.ts:34 | `photo.PNG` passes the filter |
| AzureBlob.NonImagesDropped | src/lib/azure-blob.ts:34 | `photo.txt` and `a.jpg.txt` do not pass: an image extension in the middle does not count |
| AzureBlob.BlobUrl | src/lib/azure-blob.ts:37 | the URL is the endpoint, then `/`, the container, `/`, then the blob name, with exactly that length |
| AzureBlob.ToRecord | src/lib/azure-blob.ts:35-40 | the record keeps the blob's name, lastModified and contentLength as size, and carries the blob URL of its name |
| AzureBlob.FilterImages | src/lib/azure-blob.ts:29-42 | the records kept are no more than the blobs listed, every one has an image name and the URL `https://{account}.blob.core.windows.net/{container}/{name}` |
| AzureBlob.FilterImagesAppend | src/lib/azure-blob.ts:32-42 | filtering distributes over concatenation of listings, so the result is the order-preserving subsequence of the listing |
| AzureBlob.FilterImagesMembership | src/lib/azure-blob.ts:34-40 | a record is in the result iff some listed blob with an image name has that name, that URL, and the same lastModified and size |
| AzureBlob.FilterImagesExtremes | src/lib/azure-blob.ts:32-42 | a listing of images only yields exactly the record of each blob, in listing order; a listing without images yields nothing |
| AzureBlob.FirstBroken | src/lib/azure-blob.ts:32 | the iteration has a failure iff some step of the listing is broken; the failure it has is the cause of a broken step all of whose predecessors delivered a blob, i.e. of the first broken step |
| AzureBlob.Delivered | src/lib/azure-blob.ts:32 | the blobs of the listing's item steps: no more than the steps, and, when no step is broken, exactly the blob of each step in listing order |
| AzureBlob.ListBlobsResult | src/lib/azure-blob.ts:23-49 | the guard's error without an account name; otherwise the first failure of the iteration, unchanged; success iff the account is named and nothing breaks, and then every record is an image with its blob URL and there are no more records than steps |
| AzureBlob.BrokenMidListing | src/lib/azure-blob.ts:32-48 | with the account named, blobs delivered and then a step broken with some cause make the call fail with exactly that cause, whatever follows |
| AzureBlob.NoPartialList | src/lib/azure-blob.ts:45-48 | a broken step anywhere makes the whole call fail: no partial list is returned |
| AzureBlob.ListBlobsRecords | src/lib/azure-blob.ts:32-44 | on success the records are the filter applied to the listed blobs in listing order, and a record is returned iff it is built (name, blob URL, lastModified, size) from an image blob of the listing |
| AzureBlob.MixedListing | src/lib/azure-blob.ts:34-40 | listing `photo.txt` then `photo.PNG` yields the record of `photo.PNG` alone |
| AzureBlob.ListBlobs | src/lib/azure-blob.ts:23-49 | the loop over the listing, pushing one record per image and rethrowing a failure, returns exactly `ListBlobsResult` |
| MockData.IsDevelopment | src/lib/mock-data.ts:18 | development iff NODE_ENV is exactly `development` |
| MockData.DevelopmentIsExact | src/lib/mock-data.ts:18 | an unset NODE_ENV, `Development` or `production` is not development |
| MockData.IsAzureConfigured | src/lib/mock-data.ts:21-26 | configured iff both the account name and the container name are non-empty |
| MockData.ConfiguredMeansResolvable | src/lib/mock-data.ts:21-26 | when configured, the resolver's guard passes and the configured container is the one listed |
| MockData.UnsetContainerNotConfigured | src/lib/mock-data.ts:22-25 | with the account named and the container unset: not configured, yet the guard passes and the container defaults to `images` |
| MockData.MockImageDataContents | src/lib/mock-data.ts:2-15 | exactly two records, `sample-1.jpg` (15420 bytes) then `sample-2.png` (8250 bytes) |
| MockData.MockImageDataWellFormed | src/lib/mock-data.ts:2-15 | every placeholder name passes the listing filter and every size is present and non-negative |
| MockData.MockIsNotBlobData | src/lib/mock-data.ts:2-15 | no placeholder's URL is the blob URL of its name, for any account and container |
| ImagesRoute.MessageOf | src/app/api/images/route.ts:33 | an Error's message, or `Unknown error` for any other thrown value |
| ImagesRoute.Get | src/app/api/images/route.ts:5-46 | status is 200 or 500; 200 iff `success` iff images are sent; in development always 200; outside development `source` is `azure` or absent and the images are never the placeholders; every image sent passes the extension filter |
| ImagesRoute.ServesMockOnly | src/app/api/images/route.ts:8 | mock-only mode is entered only in development, and exactly when the account name or the container name is unset or empty |
| ImagesRoute.ListingIsNeverMock | src/app/api/images/route.ts:17-22 | records carrying blob URLs are never the placeholder list |
| ImagesRoute.MockModeSkipsResolver | src/app/api/images/route.ts:8-15 | in development without configuration the answer is the placeholders tagged `mock` with status 200, the same for every listing |
| ImagesRoute.ResolverDecides | src/app/api/images/route.ts:17-44 | outside mock mode the answer depends on the listing only through the resolver's outcome |
| ImagesRoute.AzureOnSuccess | src/app/api/images/route.ts:17-22 | a successful listing is answered with exactly its records, tagged `azure`, status 200 |
| ImagesRoute.FallbackInDevelopment | src/app/api/images/route.ts:27-35 | a failure in development is answered with the placeholders tagged `mock-fallback`, status 200, and `originalError` the failure's message |
| ImagesRoute.FailureOutsideDevelopment | src/app/api/images/route.ts:37-44 | a failure outside development is a 500 with `success=false`, `error='Failed to fetch images from Azure Blob Storage'` and `details` the failure's message |
| ImagesRoute.MissingAccountOutsideDevelopment | src/app/api/images/route.ts:37-44 | outside development a missing account name still reaches the resolver, and the answer is the 500 whose details name the missing variable |
| ImagesRoute.BrokenListingInDevelopment | src/app/api/images/route.ts:27-35 | a listing that breaks with a message after any blobs gives, in development, `mock-fallback` with exactly that message |
| ImagesRoute.OnlyImagesServed | src/app/api/images/route.ts:17-22 | with storage configured, a listing of `photo.txt` and `photo.PNG` is served as the single record of `photo.PNG` with URL `https://acct.blob.core.windows.net/pics/photo.PNG` |
| ImagesRoute.ExampleBlobUrl | src/lib/azure-blob.ts:37 | the URL of blob `photo.PNG` in container `pics` of account `acct` |
| ImageGallery.Began | src/components/ImageGallery.tsx:31-32 | the start of a fetch turns loading on and clears the error, leaving images and source alone |
| ImageGallery.Settled | src/components/ImageGallery.tsx:29-49 | loading is off on every path; a body with `success` and images replaces the images and sets the source (or `unknown`); any other body records its error (or `Failed to fetch images`); a network failure records `Network error occurred while fetching images`; on both error paths images and source stay; a non-blank error is kept non-blank |
| ImageGallery.SourceLabel | src/components/ImageGallery.tsx:158-165 | `azure`, `mock` and `mock-fallback` get their fixed labels, any other tag is shown as it is; the label is empty iff the tag is |
| ImageGallery.SelectView | src/components/ImageGallery.tsx:73-111 | loading first, then a non-empty error, then an empty list, then the grid of the images, each stated as an iff; the source line appears iff the source tag is non-empty |
| ImageGallery.SettledNeverLoading | src/components/ImageGallery.tsx:46-48 | after a fetch settles the spinner is never shown |
| ImageGallery.NetworkFailureShown | src/components/ImageGallery.tsx:43-45 | a failed request shows the network message and keeps the images loaded before |
| ImageGallery.MockModeShowsPlaceholders | src/components/ImageGallery.tsx:37-39 | against the endpoint in mock mode the gallery shows the two placeholders labelled as development mock data |
| ImageGallery.DevelopmentNeverShowsError | src/components/ImageGallery.tsx:37-42 | against the endpoint in development the gallery shows a grid or the empty state, never an error |
| ImageGallery.FallbackShowsPlaceholders | src/components/ImageGallery.tsx:158-165 | after a storage failure in development the gallery shows the placeholders labelled as a connection error |
| ImageGallery.ProductionFailureShowsGenericMessage | src/components/ImageGallery.tsx:40-42 | after a storage failure outside development the gallery shows the endpoint's generic message, never the diagnostic details |
| ImageGallery.StorageImagesShown | src/components/ImageGallery.tsx:37-39 | storage images are shown in listing order labelled `Azure Blob Storage` |
| ImageGallery.Gallery.CurrentView | src/components/ImageGallery.tsx:73-111 | on a well-formed state (no blank error): the spinner iff loading; the error, with its text, iff not loading and an error is set; the empty state iff not loading, no error and no images; a grid shows exactly the non-empty images |
| ImageGallery.Gallery.constructor | src/components/ImageGallery.tsx:24-27 | the initial state: no images, loading, no error, empty source |
| ImageGallery.Gallery.BeginFetch | src/components/ImageGallery.tsx:31-32 | the fields become `Began` of the old state |
| ImageGallery.Gallery.SettleFetch | src/components/ImageGallery.tsx:37-48 | the fields become `Settled` of the old state and the outcome; the error is never blank |
| ImageGallery.Gallery.FetchImages | src/components/ImageGallery.tsx:29-49 | from any state, the fields become `Settled(Began(old state), outcome)`, loading is off and the error is never blank |

## Left out

- The Azure SDK and the credential (`BlobServiceClient`, `DefaultAzureCredential`, `getContainerClient`, `listBlobsFlat`): foreign code. The client is represented by its endpoint string and the listing by an input sequence of steps.
- AzureBlob.GetBlobServiceClient: returns the endpoint the client would be built for, not a client object, because the client is SDK code. Its failure condition assumes the SDK constructors at `src/lib/azure-blob.ts:13-17` (`new DefaultAzureCredential()`, `new BlobServiceClient(url, credential)`) never throw; if one did, the error would reach the caller of `listBlobs` the same way as a listing whose first step is broken.
- `getBlobUrl`: beyond the account-name guard it shares with `listBlobs` (modelled), it returns the SDK's own `blobClient.url`, which is opaque here.
- `process.env`: replaced by the explicit `Env` record. `isDevelopment` is read once at load; the model takes the same value from `Env`.
- `async`/`await` and `for await`: modelled as sequential steps. The intermediate state between the start and the end of `fetchImages` is `Began`.
- The race between overlapping `fetchImages` calls on rapid retry: a concurrency effect; each fetch is modelled as one start followed by its own settlement.
- `console.log` and `console.error`: side effects only.
- `formatFileSize` (floating-point `Math.log`, `Math.pow`, `Math.round`) and `formatDate` (locale formatting): presentation only.
- JSX markup, CSS classes, icons and `next/image`; the `useEffect` that runs the first fetch on mount (a client calls the constructor, then `FetchImages`).
- JSON encoding between the endpoint and the gallery: the gallery receives the endpoint's body as a value. `Date` values are timestamps in milliseconds; their string form after JSON is not modelled. The gallery reads only the body and ignores the HTTP status, as the component does.
- `src/app/page.tsx` (static layout) and `next.config.ts` (the image host allow-list) are not part of this model.
