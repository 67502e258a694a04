/**
 * The development placeholders and the two environment predicates the
 * endpoint decides on.
 */
module MockData {
  import opened Wrappers
  import opened Environment
  import opened AzureBlob

  /** 2024-01-15T00:00:00Z and 2024-01-10T00:00:00Z, in milliseconds since the epoch. */
  const Jan15: Timestamp := 1705276800000
  const Jan10: Timestamp := 1704844800000

  /** The two placeholder records served when real data is unavailable. */
  const MockImageData: seq<ImageRecord> := [
    ImageRecord("sample-1.jpg", "/next.svg", Some(Jan15), Some(15420)),
    ImageRecord("sample-2.png", "/vercel.svg", Some(Jan10), Some(8250))
  ]

  /** Running in development: NODE_ENV is exactly `development`. */
  function IsDevelopment(env: Env): (r: bool)
    ensures r <==> env.nodeEnv == Some("development")
  {
    env.nodeEnv == Some("development")
  }

  /** Storage counts as configured only when both the account and the container are named. */
  function IsAzureConfigured(env: Env): (r: bool)
    ensures r <==> Truthy(env.accountName) && Truthy(env.containerName)
  {
    Truthy(env.accountName) && Truthy(env.containerName)
  }

  /** An unset NODE_ENV, or any other spelling, is not development. */
  lemma DevelopmentIsExact()
    ensures !IsDevelopment(Env(None, None, None))
    ensures !IsDevelopment(Env(None, None, Some("Development")))
    ensures !IsDevelopment(Env(None, None, Some("production")))
  {
  }

  /**
   * Configuration implies the resolver's guard passes and the configured
   * container is the one listed.
   */
  lemma ConfiguredMeansResolvable(env: Env)
    requires IsAzureConfigured(env)
    ensures GetBlobServiceClient(env).Success?
    ensures ContainerName(env) == env.containerName.value
  {
  }

  /**
   * The configuration check is stricter than the resolver: with the account
   * named and the container unset, storage does not count as configured, yet
   * the resolver would pass its guard and list the default `images` container.
   */
  lemma UnsetContainerNotConfigured(env: Env)
    requires Truthy(env.accountName) && env.containerName.None?
    ensures !IsAzureConfigured(env)
    ensures GetBlobServiceClient(env).Success?
    ensures ContainerName(env) == DefaultContainer
  {
  }

  /** Exactly two records, `sample-1.jpg` then `sample-2.png`, of 15420 and 8250 bytes. */
  lemma MockImageDataContents()
    ensures |MockImageData| == 2
    ensures MockImageData[0].name == "sample-1.jpg" && MockImageData[0].size == Some(15420)
    ensures MockImageData[1].name == "sample-2.png" && MockImageData[1].size == Some(8250)
  {
  }

  /** Every placeholder has a name the listing filter would keep and a non-negative size. */
  lemma MockImageDataWellFormed()
    ensures forall k :: 0 <= k < |MockImageData| ==> IsImageName(MockImageData[k].name)
    ensures forall k :: 0 <= k < |MockImageData| ==> MockImageData[k].size.Some? && MockImageData[k].size.value >= 0
  {
    assert EndsWithIgnoringCase("sample-1.jpg", ".jpg");
    assert EndsWithIgnoringCase("sample-2.png", ".png");
  }

  /** No placeholder URL is a blob URL: placeholders are site-relative paths. */
  lemma MockIsNotBlobData(account: string, container: string)
    ensures forall k :: 0 <= k < |MockImageData| ==>
      MockImageData[k].url != BlobUrl(account, container, MockImageData[k].name)
  {
    forall k | 0 <= k < |MockImageData|
      ensures MockImageData[k].url != BlobUrl(account, container, MockImageData[k].name)
    {
      assert BlobUrl(account, container, MockImageData[k].name)[0] == 'h';
      assert MockImageData[k].url[0] == '/';
    }
  }
}
