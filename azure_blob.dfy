/**
 * The blob resolver: the account-name guard in front of the storage client,
 * the container default, the image-extension filter and the construction of
 * one image record per retained blob, in listing order.
 *
 * The storage SDK is not modelled. Its flat listing is an input: a sequence
 * of steps, each either a delivered blob or a failure raised by the
 * iteration (authentication, network, listing), after which nothing more is
 * delivered.
 */
module AzureBlob {
  import opened Wrappers
  import opened Environment

  /** A point in time, as milliseconds since the epoch. */
  type Timestamp = int

  /** What the listing reports for one blob: its name and optional properties. */
  datatype BlobItem = BlobItem(name: string, lastModified: Option<Timestamp>, contentLength: Option<int>)

  /** The normalised record the gallery displays. */
  datatype ImageRecord = ImageRecord(name: string, url: string, lastModified: Option<Timestamp>, size: Option<int>)

  /** A thrown value: an `Error` object with its message, or anything else. */
  datatype Thrown = ErrorValue(message: string) | OtherValue

  /** One step of the listing iteration. */
  datatype ListingStep = Item(blob: BlobItem) | Broken(cause: Thrown)

  const AccountNameRequired := "AZURE_STORAGE_ACCOUNT_NAME environment variable is required"
  const DefaultContainer := "images"

  /** The extensions the filter accepts, in lower case. */
  const ImageExtensions: seq<string> := ["jpg", "jpeg", "png", "gif", "webp"]

  // ---------------------------------------------------------------------------
  // Client and container

  /** The blob service endpoint of a storage account. */
  function ServiceEndpoint(account: string): string
  {
    "https://" + account + ".blob.core.windows.net"
  }

  /**
   * The guard in front of every storage call: without an account name it throws
   * before any credential or client exists; otherwise the client it builds is
   * identified by the service endpoint of that account.
   */
  function GetBlobServiceClient(env: Env): (r: Result<string, Thrown>)
    ensures r.Failure? <==> !Truthy(env.accountName)
    ensures r.Failure? ==> r.error == ErrorValue(AccountNameRequired)
    ensures r.Success? ==> r.value == ServiceEndpoint(env.accountName.value)
  {
    if !Truthy(env.accountName) then Failure(ErrorValue(AccountNameRequired))
    else Success(ServiceEndpoint(env.accountName.value))
  }

  /** Two accounts never share an endpoint: the endpoint names its account. */
  lemma EndpointDeterminesAccount(a: string, b: string)
    requires ServiceEndpoint(a) == ServiceEndpoint(b)
    ensures a == b
  {
    var ea, eb := ServiceEndpoint(a), ServiceEndpoint(b);
    assert |a| == |b|;
    assert a == ea[8..8 + |a|];
    assert b == eb[8..8 + |b|];
  }

  /** The container listed: the configured one when it is non-empty, else `images`. */
  function ContainerName(env: Env): (r: string)
    ensures r != ""
    ensures Truthy(env.containerName) ==> r == env.containerName.value
    ensures !Truthy(env.containerName) ==> r == DefaultContainer
  {
    if Truthy(env.containerName) then env.containerName.value else DefaultContainer
  }

  // ---------------------------------------------------------------------------
  // The image-extension filter: /\.(jpg|jpeg|png|gif|webp)$/i

  /** ASCII case folding, which is all the `i` flag does without the `u` flag. */
  function ToLower(c: char): char
  {
    if 'A' <= c <= 'Z' then (c as int + 32) as char else c
  }

  function LowerAll(s: string): (r: string)
    ensures |r| == |s|
    ensures forall i :: 0 <= i < |s| ==> r[i] == ToLower(s[i])
  {
    seq(|s|, i requires 0 <= i < |s| => ToLower(s[i]))
  }

  /** `s` ends with the lower-case `suffix`, ignoring the case of `s`. */
  predicate EndsWithIgnoringCase(s: string, suffix: string)
  {
    |suffix| <= |s| && forall i :: 0 <= i < |suffix| ==> ToLower(s[|s| - |suffix| + i]) == suffix[i]
  }

  /** The regular expression of the listing filter: one alternative per extension, anchored at the end. */
  predicate IsImageName(name: string)
    ensures IsImageName(name) ==> 4 <= |name|
    ensures IsImageName(name) ==> name[|name| - 4] == '.' || (5 <= |name| && name[|name| - 5] == '.')
  {
    DotBeforeExtension(name);
    || EndsWithIgnoringCase(name, ".jpg")
    || EndsWithIgnoringCase(name, ".jpeg")
    || EndsWithIgnoringCase(name, ".png")
    || EndsWithIgnoringCase(name, ".gif")
    || EndsWithIgnoringCase(name, ".webp")
  }

  /** The dot of a three-letter extension is four characters from the end, that of a four-letter one five. */
  lemma DotBeforeExtension(name: string)
    ensures EndsWithIgnoringCase(name, ".jpg") || EndsWithIgnoringCase(name, ".png") || EndsWithIgnoringCase(name, ".gif") ==>
      name[|name| - 4] == '.'
    ensures EndsWithIgnoringCase(name, ".jpeg") || EndsWithIgnoringCase(name, ".webp") ==>
      5 <= |name| && name[|name| - 5] == '.'
  {
    if EndsWithIgnoringCase(name, ".jpg") { assert ToLower(name[|name| - 4 + 0]) == ".jpg"[0]; }
    if EndsWithIgnoringCase(name, ".png") { assert ToLower(name[|name| - 4 + 0]) == ".png"[0]; }
    if EndsWithIgnoringCase(name, ".gif") { assert ToLower(name[|name| - 4 + 0]) == ".gif"[0]; }
    if EndsWithIgnoringCase(name, ".jpeg") { assert ToLower(name[|name| - 5 + 0]) == ".jpeg"[0]; }
    if EndsWithIgnoringCase(name, ".webp") { assert ToLower(name[|name| - 5 + 0]) == ".webp"[0]; }
  }

  /** The part of `s` after its last `|ext| + 1` characters start, i.e. the candidate extension. */
  predicate HasExtension(s: string, ext: string)
  {
    |s| > |ext| && s[|s| - |ext| - 1] == '.' && LowerAll(s[|s| - |ext|..]) == ext
  }

  lemma EndsWithDotExtension(s: string, ext: string)
    requires forall i :: 0 <= i < |ext| ==> 'a' <= ext[i] <= 'z'
    ensures EndsWithIgnoringCase(s, "." + ext) <==> HasExtension(s, ext)
  {
    var suffix := "." + ext;
    if EndsWithIgnoringCase(s, suffix) {
      assert ToLower(s[|s| - |suffix|]) == suffix[0] == '.';
      var tail := LowerAll(s[|s| - |ext|..]);
      forall i | 0 <= i < |ext| ensures tail[i] == ext[i] {
        assert ToLower(s[|s| - |suffix| + (i + 1)]) == suffix[i + 1];
      }
    }
    if HasExtension(s, ext) {
      var tail := LowerAll(s[|s| - |ext|..]);
      forall i | 0 <= i < |suffix| ensures ToLower(s[|s| - |suffix| + i]) == suffix[i] {
        if i > 0 {
          assert tail[i - 1] == ext[i - 1];
        }
      }
    }
  }

  /**
   * What the filter accepts, stated without the regular expression: a dot
   * followed by one of the five extensions, in any letter case, at the very
   * end of the name.
   */
  lemma ImageNameMeaning(name: string)
    ensures IsImageName(name) <==> exists ext :: ext in ImageExtensions && HasExtension(name, ext)
  {
    EndsWithDotExtension(name, "jpg");
    EndsWithDotExtension(name, "jpeg");
    EndsWithDotExtension(name, "png");
    EndsWithDotExtension(name, "gif");
    EndsWithDotExtension(name, "webp");
    assert "." + "jpg" == ".jpg" && "." + "jpeg" == ".jpeg" && "." + "png" == ".png";
    assert "." + "gif" == ".gif" && "." + "webp" == ".webp";
  }

  lemma EndsWithIgnoresCase(s: string, suffix: string)
    ensures EndsWithIgnoringCase(s, suffix) <==> EndsWithIgnoringCase(LowerAll(s), suffix)
  {
  }

  /** Letter case never decides whether a name is kept. */
  lemma ImageNameIgnoresCase(name: string)
    ensures IsImageName(name) <==> IsImageName(LowerAll(name))
  {
    EndsWithIgnoresCase(name, ".jpg");
    EndsWithIgnoresCase(name, ".jpeg");
    EndsWithIgnoresCase(name, ".png");
    EndsWithIgnoresCase(name, ".gif");
    EndsWithIgnoresCase(name, ".webp");
  }

  lemma EndsWithAnchored(prefix: string, name: string, suffix: string)
    requires EndsWithIgnoringCase(name, suffix)
    ensures EndsWithIgnoringCase(prefix + name, suffix)
  {
    var s := prefix + name;
    forall i | 0 <= i < |suffix|
      ensures ToLower(s[|s| - |suffix| + i]) == suffix[i]
    {
      assert s[|s| - |suffix| + i] == name[|name| - |suffix| + i];
    }
  }

  /** Only the end of the name matters: any prefix keeps an image name an image name. */
  lemma ImageNameAnchoredAtEnd(prefix: string, name: string)
    requires IsImageName(name)
    ensures IsImageName(prefix + name)
  {
    if EndsWithIgnoringCase(name, ".jpg") { EndsWithAnchored(prefix, name, ".jpg"); }
    if EndsWithIgnoringCase(name, ".jpeg") { EndsWithAnchored(prefix, name, ".jpeg"); }
    if EndsWithIgnoringCase(name, ".png") { EndsWithAnchored(prefix, name, ".png"); }
    if EndsWithIgnoringCase(name, ".gif") { EndsWithAnchored(prefix, name, ".gif"); }
    if EndsWithIgnoringCase(name, ".webp") { EndsWithAnchored(prefix, name, ".webp"); }
  }

  /** One mismatching character rules a suffix out. */
  lemma MismatchAt(s: string, suffix: string, i: nat)
    requires i < |suffix| <= |s| && ToLower(s[|s| - |suffix| + i]) != suffix[i]
    ensures !EndsWithIgnoringCase(s, suffix)
  {
  }

  /** The filter keeps `photo.PNG`, whatever the case of its extension. */
  lemma UpperCaseImageKept()
    ensures IsImageName("photo.PNG")
  {
  }

  /**
   * The filter drops `photo.txt`, and `a.jpg.txt`: an image extension that is
   * not at the end of the name does not count.
   */
  lemma NonImagesDropped()
    ensures !IsImageName("photo.txt")
    ensures !IsImageName("a.jpg.txt")
  {
    var t1, t2 := "photo.txt", "a.jpg.txt";
    MismatchAt(t1, ".jpeg", 0);
    MismatchAt(t1, ".webp", 0);
    MismatchAt(t1, ".jpg", 1);
    MismatchAt(t1, ".png", 1);
    MismatchAt(t1, ".gif", 1);
    MismatchAt(t2, ".jpeg", 0);
    MismatchAt(t2, ".webp", 0);
    MismatchAt(t2, ".jpg", 1);
    MismatchAt(t2, ".png", 1);
    MismatchAt(t2, ".gif", 1);
  }

  // ---------------------------------------------------------------------------
  // Records

  /** The public URL of a blob: the account endpoint, the container, the blob name. */
  function BlobUrl(account: string, container: string, name: string): (url: string)
    ensures |url| == |ServiceEndpoint(account)| + |container| + |name| + 2
    ensures url[..|ServiceEndpoint(account)|] == ServiceEndpoint(account)
    ensures url[|url| - |name|..] == name
    ensures url[|ServiceEndpoint(account)|..|url| - |name|] == "/" + container + "/"
  {
    ServiceEndpoint(account) + "/" + container + "/" + name
  }

  /** The record of one listed blob. */
  function ToRecord(blob: BlobItem, account: string, container: string): (rec: ImageRecord)
    ensures RecordOf(rec, blob, account, container)
  {
    ImageRecord(blob.name, BlobUrl(account, container, blob.name), blob.lastModified, blob.contentLength)
  }

  /** A record built from a blob of that account and container: name and properties copied, URL derived. */
  predicate RecordOf(rec: ImageRecord, blob: BlobItem, account: string, container: string)
  {
    && rec.name == blob.name
    && rec.url == BlobUrl(account, container, blob.name)
    && rec.lastModified == blob.lastModified
    && rec.size == blob.contentLength
  }

  /** The records of the blobs whose names pass the filter, in listing order. */
  function FilterImages(blobs: seq<BlobItem>, account: string, container: string): (r: seq<ImageRecord>)
    ensures |r| <= |blobs|
    ensures forall k :: 0 <= k < |r| ==> IsImageName(r[k].name)
    ensures forall k :: 0 <= k < |r| ==> r[k].url == BlobUrl(account, container, r[k].name)
  {
    if blobs == [] then []
    else
      var rest := FilterImages(blobs[1..], account, container);
      if IsImageName(blobs[0].name) then [ToRecord(blobs[0], account, container)] + rest else rest
  }

  /** Filtering distributes over concatenation, so the result keeps the listing's order. */
  lemma {:induction false} FilterImagesAppend(a: seq<BlobItem>, b: seq<BlobItem>, account: string, container: string)
    ensures FilterImages(a + b, account, container) == FilterImages(a, account, container) + FilterImages(b, account, container)
  {
    if a != [] {
      assert (a + b)[1..] == a[1..] + b;
      FilterImagesAppend(a[1..], b, account, container);
    } else {
      assert a + b == b;
    }
  }

  /**
   * A record is in the result exactly when it was built from a listed blob
   * whose name passes the filter.
   */
  lemma {:induction false} FilterImagesMembership(blobs: seq<BlobItem>, account: string, container: string, rec: ImageRecord)
    ensures rec in FilterImages(blobs, account, container) <==>
      exists i :: 0 <= i < |blobs| && IsImageName(blobs[i].name) && RecordOf(rec, blobs[i], account, container)
  {
    if blobs != [] {
      FilterImagesMembership(blobs[1..], account, container, rec);
      if exists i :: 0 <= i < |blobs| && IsImageName(blobs[i].name) && RecordOf(rec, blobs[i], account, container) {
        var i :| 0 <= i < |blobs| && IsImageName(blobs[i].name) && RecordOf(rec, blobs[i], account, container);
        if i > 0 {
          assert blobs[1..][i - 1] == blobs[i];
        }
      }
      if exists j :: 0 <= j < |blobs[1..]| && IsImageName(blobs[1..][j].name) && RecordOf(rec, blobs[1..][j], account, container) {
        var j :| 0 <= j < |blobs[1..]| && IsImageName(blobs[1..][j].name) && RecordOf(rec, blobs[1..][j], account, container);
        assert blobs[j + 1] == blobs[1..][j];
      }
    }
  }

  /** A listing made only of images is kept whole, record for blob; one with no image yields nothing. */
  lemma FilterImagesExtremes(blobs: seq<BlobItem>, account: string, container: string)
    ensures (forall i :: 0 <= i < |blobs| ==> IsImageName(blobs[i].name)) ==>
      FilterImages(blobs, account, container) == seq(|blobs|, i requires 0 <= i < |blobs| => ToRecord(blobs[i], account, container))
    ensures (forall i :: 0 <= i < |blobs| ==> !IsImageName(blobs[i].name)) ==>
      FilterImages(blobs, account, container) == []
  {
    if forall i :: 0 <= i < |blobs| ==> IsImageName(blobs[i].name) {
      FilterAllImages(blobs, account, container);
      assert FilterImages(blobs, account, container) ==
        seq(|blobs|, i requires 0 <= i < |blobs| => ToRecord(blobs[i], account, container));
    }
    if forall i :: 0 <= i < |blobs| ==> !IsImageName(blobs[i].name) {
      FilterNoImages(blobs, account, container);
    }
  }

  lemma {:induction false} FilterAllImages(blobs: seq<BlobItem>, account: string, container: string)
    requires forall i :: 0 <= i < |blobs| ==> IsImageName(blobs[i].name)
    ensures |FilterImages(blobs, account, container)| == |blobs|
    ensures forall i :: 0 <= i < |blobs| ==> FilterImages(blobs, account, container)[i] == ToRecord(blobs[i], account, container)
  {
    if blobs != [] {
      var tail := blobs[1..];
      assert IsImageName(blobs[0].name);
      forall i | 0 <= i < |tail| ensures IsImageName(tail[i].name) { assert tail[i] == blobs[i + 1]; }
      FilterAllImages(tail, account, container);
      var r, rest := FilterImages(blobs, account, container), FilterImages(tail, account, container);
      assert r == [ToRecord(blobs[0], account, container)] + rest;
      forall i | 0 <= i < |blobs| ensures r[i] == ToRecord(blobs[i], account, container) {
        if i > 0 { assert r[i] == rest[i - 1] && tail[i - 1] == blobs[i]; }
      }
    }
  }

  lemma {:induction false} FilterNoImages(blobs: seq<BlobItem>, account: string, container: string)
    requires forall i :: 0 <= i < |blobs| ==> !IsImageName(blobs[i].name)
    ensures FilterImages(blobs, account, container) == []
  {
    if blobs != [] {
      var tail := blobs[1..];
      assert !IsImageName(blobs[0].name);
      forall i | 0 <= i < |tail| ensures !IsImageName(tail[i].name) { assert tail[i] == blobs[i + 1]; }
      FilterNoImages(tail, account, container);
    }
  }

  // ---------------------------------------------------------------------------
  // The listing

  /** The failure that ends the iteration, if any: the first broken step. */
  function FirstBroken(steps: seq<ListingStep>): (r: Option<Thrown>)
    ensures r.None? <==> forall i :: 0 <= i < |steps| ==> steps[i].Item?
    ensures r.Some? ==> exists i :: 0 <= i < |steps| && steps[i] == Broken(r.value) &&
                                   (forall j :: 0 <= j < i ==> steps[j].Item?)
  {
    if steps == [] then None
    else if steps[0].Broken? then
      assert steps[0] == Broken(steps[0].cause);
      Some(steps[0].cause)
    else
      var r := FirstBroken(steps[1..]);
      if r.Some? then
        var i :| 0 <= i < |steps[1..]| && steps[1..][i] == Broken(r.value) && forall j :: 0 <= j < i ==> steps[1..][j].Item?;
        assert steps[i + 1] == Broken(r.value);
        assert forall j :: 0 <= j < i + 1 ==> steps[j].Item? by {
          forall j | 0 <= j < i + 1 ensures steps[j].Item? {
            if j > 0 { assert steps[j] == steps[1..][j - 1]; }
          }
        }
        r
      else r
  }

  lemma {:induction false} FirstBrokenAppend(a: seq<ListingStep>, b: seq<ListingStep>)
    ensures FirstBroken(a + b) == if FirstBroken(a).Some? then FirstBroken(a) else FirstBroken(b)
  {
    if a != [] {
      assert (a + b)[1..] == a[1..] + b;
      FirstBrokenAppend(a[1..], b);
    } else {
      assert a + b == b;
    }
  }

  /**
   * The blobs of the `Item` steps, in order. When no step is broken these are
   * exactly the blobs the iteration delivers, one per step.
   */
  function Delivered(steps: seq<ListingStep>): (r: seq<BlobItem>)
    ensures |r| <= |steps|
    ensures (forall i :: 0 <= i < |steps| ==> steps[i].Item?) ==>
      r == seq(|steps|, i requires 0 <= i < |steps| => steps[i].blob)
  {
    if steps == [] then []
    else (if steps[0].Item? then [steps[0].blob] else []) + Delivered(steps[1..])
  }

  lemma {:induction false} DeliveredAppend(a: seq<ListingStep>, b: seq<ListingStep>)
    ensures Delivered(a + b) == Delivered(a) + Delivered(b)
  {
    if a != [] {
      assert (a + b)[1..] == a[1..] + b;
      DeliveredAppend(a[1..], b);
    } else {
      assert a + b == b;
    }
  }

  /**
   * What listing the images of the configured container yields: the guard's
   * error, or the first failure of the iteration unchanged (never a partial
   * list), or the filtered records of every delivered blob.
   */
  function ListBlobsResult(env: Env, steps: seq<ListingStep>): (r: Result<seq<ImageRecord>, Thrown>)
    ensures !Truthy(env.accountName) ==> r == Failure(ErrorValue(AccountNameRequired))
    ensures Truthy(env.accountName) && FirstBroken(steps).Some? ==> r == Failure(FirstBroken(steps).value)
    ensures r.Success? <==> Truthy(env.accountName) && forall i :: 0 <= i < |steps| ==> steps[i].Item?
    ensures r.Success? ==> |r.value| <= |steps|
    ensures r.Success? ==> forall k :: 0 <= k < |r.value| ==>
      IsImageName(r.value[k].name) && r.value[k].url == BlobUrl(env.accountName.value, ContainerName(env), r.value[k].name)
  {
    match GetBlobServiceClient(env)
    case Failure(e) => Failure(e)
    case Success(_) =>
      match FirstBroken(steps)
      case Some(e) => Failure(e)
      case None => Success(FilterImages(Delivered(steps), env.accountName.value, ContainerName(env)))
  }

  /**
   * On success the records are the filter applied to the listed blobs in
   * listing order, so a record is returned exactly when it is built from an
   * image blob of the listing.
   */
  lemma ListBlobsRecords(env: Env, steps: seq<ListingStep>, rec: ImageRecord)
    requires ListBlobsResult(env, steps).Success?
    ensures ListBlobsResult(env, steps).value ==
      FilterImages(seq(|steps|, i requires 0 <= i < |steps| => steps[i].blob), env.accountName.value, ContainerName(env))
    ensures rec in ListBlobsResult(env, steps).value <==>
      exists i :: 0 <= i < |steps| && steps[i].Item? && IsImageName(steps[i].blob.name) &&
                  RecordOf(rec, steps[i].blob, env.accountName.value, ContainerName(env))
  {
    var account, container := env.accountName.value, ContainerName(env);
    var blobs := Delivered(steps);
    assert |blobs| == |steps| && forall i :: 0 <= i < |steps| ==> steps[i].Item? && blobs[i] == steps[i].blob;
    FilterImagesMembership(blobs, account, container, rec);
    if exists i :: 0 <= i < |blobs| && IsImageName(blobs[i].name) && RecordOf(rec, blobs[i], account, container) {
      var i :| 0 <= i < |blobs| && IsImageName(blobs[i].name) && RecordOf(rec, blobs[i], account, container);
      assert steps[i].Item? && steps[i].blob == blobs[i];
    }
    if exists i :: 0 <= i < |steps| && steps[i].Item? && IsImageName(steps[i].blob.name) &&
                   RecordOf(rec, steps[i].blob, account, container) {
      var i :| 0 <= i < |steps| && steps[i].Item? && IsImageName(steps[i].blob.name) &&
               RecordOf(rec, steps[i].blob, account, container);
      assert blobs[i] == steps[i].blob;
    }
  }

  /** A listing of `photo.txt` then `photo.PNG` yields the record of `photo.PNG` alone. */
  lemma MixedListing(env: Env, size: Option<int>)
    requires Truthy(env.accountName)
    ensures var png := BlobItem("photo.PNG", None, size);
      ListBlobsResult(env, [Item(BlobItem("photo.txt", None, None)), Item(png)]) ==
        Success([ToRecord(png, env.accountName.value, ContainerName(env))])
  {
    var txt, png := BlobItem("photo.txt", None, None), BlobItem("photo.PNG", None, size);
    var listing := [Item(txt), Item(png)];
    NonImagesDropped();
    UpperCaseImageKept();
    assert listing[1..] == [Item(png)] && listing[1..][1..] == [];
    assert Delivered(listing) == [txt, png];
    assert [txt, png][1..] == [png] && [png][1..] == [];
    assert FirstBroken(listing) == None;
    assert FilterImages([png], env.accountName.value, ContainerName(env)) == [ToRecord(png, env.accountName.value, ContainerName(env))];
    assert FilterImages([txt, png], env.accountName.value, ContainerName(env)) == [ToRecord(png, env.accountName.value, ContainerName(env))];
  }

  /**
   * A listing that breaks after any number of blobs fails with exactly the
   * cause it broke with, whatever would have followed.
   */
  lemma BrokenMidListing(env: Env, pre: seq<ListingStep>, cause: Thrown, post: seq<ListingStep>)
    requires Truthy(env.accountName)
    requires forall i :: 0 <= i < |pre| ==> pre[i].Item?
    ensures ListBlobsResult(env, pre + [Broken(cause)] + post) == Failure(cause)
  {
    FirstBrokenAppend(pre, [Broken(cause)] + post);
    assert pre + [Broken(cause)] + post == pre + ([Broken(cause)] + post);
    assert FirstBroken([Broken(cause)] + post) == Some(cause);
  }

  /** A broken step anywhere in the listing makes the whole call fail. */
  lemma NoPartialList(env: Env, steps: seq<ListingStep>, i: nat)
    requires i < |steps| && steps[i].Broken?
    ensures ListBlobsResult(env, steps).Failure?
  {
  }

  /** One more delivered blob: no failure appears, and its record is appended when its name passes. */
  lemma ItemStep(prefix: seq<ListingStep>, blob: BlobItem, account: string, container: string)
    ensures FirstBroken(prefix + [Item(blob)]) == FirstBroken(prefix)
    ensures FilterImages(Delivered(prefix + [Item(blob)]), account, container) ==
      FilterImages(Delivered(prefix), account, container) + if IsImageName(blob.name) then [ToRecord(blob, account, container)] else []
  {
    assert Delivered([Item(blob)]) == [blob] by { assert [Item(blob)][1..] == []; }
    assert FilterImages([blob], account, container) ==
      if IsImageName(blob.name) then [ToRecord(blob, account, container)] else [] by { assert [blob][1..] == []; }
    DeliveredAppend(prefix, [Item(blob)]);
    FirstBrokenAppend(prefix, [Item(blob)]);
    FilterImagesAppend(Delivered(prefix), [blob], account, container);
  }

  /**
   * `listBlobs`: builds the client (or throws), then walks the listing and
   * pushes a record for every image it meets. A failure of the iteration
   * abandons the records collected so far and is rethrown unchanged.
   */
  method ListBlobs(env: Env, steps: seq<ListingStep>) returns (r: Result<seq<ImageRecord>, Thrown>)
    ensures r == ListBlobsResult(env, steps)
  {
    var client := GetBlobServiceClient(env);
    if client.Failure? {
      return Failure(client.error);
    }
    var account := env.accountName.value;
    var containerName := ContainerName(env);
    var blobs: seq<ImageRecord> := [];
    var i := 0;
    while i < |steps|
      invariant 0 <= i <= |steps|
      invariant FirstBroken(steps[..i]).None?
      invariant blobs == FilterImages(Delivered(steps[..i]), account, containerName)
    {
      assert steps[..i + 1] == steps[..i] + [steps[i]];
      match steps[i]
      case Broken(cause) =>
        assert steps == steps[..i] + [Broken(cause)] + steps[i + 1..];
        BrokenMidListing(env, steps[..i], cause, steps[i + 1..]);
        return Failure(cause);
      case Item(blob) =>
        ItemStep(steps[..i], blob, account, containerName);
        if IsImageName(blob.name) {
          blobs := blobs + [ToRecord(blob, account, containerName)];
        }
      i := i + 1;
    }
    assert steps[..i] == steps;
    return Success(blobs);
  }
}
