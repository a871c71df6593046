/** The MinIO object store wrapper: endpoint parsing, the object-naming
    scheme for full images, thumbnails and metadata, the public URLs built
    from those names, thumbnail centring, and which calls raise and which
    report failure by value. The bucket is a map from object name to stored
    object; PNG encoding and decoding are abstracted by storing the image
    value itself. Each client call that can fail takes its failure as a
    parameter. */
module Minio {
  import opened Wrappers
  import opened Strings
  import opened Imaging

  // -----------------------------------------------------------------------
  // Endpoint
  // -----------------------------------------------------------------------

  datatype Endpoint = Endpoint(host: string, secure: bool)

  /** `__init__`: every "http://" is deleted, then every "https://"; the
      connection is secure exactly when the configured URL starts with
      "https://". */
  function ParseEndpoint(minioUrl: string): (e: Endpoint)
    ensures e.secure <==> StartsWith(minioUrl, "https://")
    ensures |e.host| <= |minioUrl|
  {
    RemoveAllShrinks(minioUrl, "http://");
    RemoveAllShrinks(RemoveAll(minioUrl, "http://"), "https://");
    Endpoint(RemoveAll(RemoveAll(minioUrl, "http://"), "https://"),
             StartsWith(minioUrl, "https://"))
  }

  lemma {:induction false} RemoveAllShrinks(s: string, pat: string)
    requires |pat| > 0
    ensures |RemoveAll(s, pat)| <= |s|
    decreases |s|
  {
    if |s| >= |pat| {
      if s[..|pat|] == pat {
        RemoveAllShrinks(s[|pat|..], pat);
      } else {
        RemoveAllShrinks(s[1..], pat);
      }
    }
  }

  /** A host without '/' holds neither scheme marker. */
  lemma HostHasNoScheme(host: string)
    requires '/' !in host
    ensures !Contains(host, "http://") && !Contains(host, "https://")
  {
    ContainedCharsOccur(host, "http://", 5);
    ContainedCharsOccur(host, "https://", 6);
  }

  /** A plain-HTTP URL yields its host and an insecure connection. */
  lemma ParseHttpEndpoint(host: string)
    requires '/' !in host
    ensures ParseEndpoint("http://" + host) == Endpoint(host, false)
  {
    HostHasNoScheme(host);
    RemoveAllLeading("http://", host);
    RemoveAllAbsent(host, "http://");
    RemoveAllAbsent(host, "https://");
    assert ("http://" + host)[4] == ':';
  }

  /** An HTTPS URL yields its host and a secure connection. */
  lemma ParseHttpsEndpoint(host: string)
    requires '/' !in host
    ensures ParseEndpoint("https://" + host) == Endpoint(host, true)
  {
    HostHasNoScheme(host);
    var s := "https://" + host;
    forall i | 0 <= i < |"https://"|
      ensures !StartsWith(s[i..], "http://")
    {
      if i == 0 {
        assert s[i..][4] == 's';
      } else {
        assert s[i..][0] == s[i] != 'h';
      }
    }
    NotContainsAfterPrefix("https://", host, "http://");
    RemoveAllAbsent(s, "http://");
    RemoveAllLeading("https://", host);
    RemoveAllAbsent(host, "https://");
    assert s[..8] == "https://";
  }

  // -----------------------------------------------------------------------
  // Object names and URLs
  // -----------------------------------------------------------------------

  function ImageObjectName(id: string): string {
    "images/" + id + ".png"
  }

  function ThumbObjectName(id: string): string {
    "thumbs/" + id + ".png"
  }

  function MetadataObjectName(id: string): string {
    "metadata/" + id + ".json"
  }

  /** The public URL of an object: configured URL, bucket, object name. */
  function ObjectUrl(minioUrl: string, bucket: string, objectName: string): string {
    minioUrl + "/" + bucket + "/" + objectName
  }

  /** Distinct ids never share an object name. */
  lemma ImageObjectNameInjective(a: string, b: string)
    ensures ImageObjectName(a) == ImageObjectName(b) <==> a == b
  {
    if ImageObjectName(a) == ImageObjectName(b) {
      var n := ImageObjectName(a);
      assert |a| == |b|;
      assert a == n[7..7 + |a|];
      assert b == ImageObjectName(b)[7..7 + |b|];
    }
  }

  /** Full images and thumbnails live under different prefixes. */
  lemma ImageAndThumbNamesDiffer(a: string, b: string)
    ensures ImageObjectName(a) != ThumbObjectName(b)
  {
    assert ImageObjectName(a)[0] == 'i' && ThumbObjectName(b)[0] == 't';
  }

  // -----------------------------------------------------------------------
  // Bucket
  // -----------------------------------------------------------------------

  datatype StoredObject =
    | Png(image: Image)
    | Json(text: string, declaredLength: nat)

  datatype Config = Config(minioUrl: string, bucket: string)

  datatype Bucket = Bucket(objects: map<string, StoredObject>)

  /** The dictionary `store_image` returns: always all three keys. */
  datatype StoreResult = StoreResult(id: string, url: string, thumbnailUrl: Option<string>)

  datatype Stored = Stored(bucket: Bucket, result: StoreResult)

  // -----------------------------------------------------------------------
  // Thumbnails
  // -----------------------------------------------------------------------

  const ThumbnailWidth: nat := 300
  const ThumbnailHeight: nat := 200

  /** `(canvas - inner) // 2`: floor division, as Dafny's `/` is for a
      positive divisor. An inner extent that fits lands inside the canvas,
      with the two margins differing by at most one, the larger on the
      right. */
  function CentreOffset(canvas: int, inner: int): (off: int)
    ensures 2 * off <= canvas - inner < 2 * off + 2
    ensures 0 <= inner <= canvas ==> 0 <= off && off + inner <= canvas
    ensures var right := canvas - inner - off; off <= right <= off + 1
  {
    (canvas - inner) / 2
  }

  /** `_generate_thumbnail`: the aspect-preserving resized copy (computed by
      the imaging library and passed in) pasted at the centre of a white
      300x200 RGB canvas. */
  function GenerateThumbnail(fitted: Image): (t: Image)
    ensures t.Canvas? && t.width == ThumbnailWidth && t.height == ThumbnailHeight
    ensures t.pasted == fitted
    ensures fitted.width <= ThumbnailWidth && fitted.height <= ThumbnailHeight ==>
      && 0 <= t.x && t.x + fitted.width <= t.width
      && 0 <= t.y && t.y + fitted.height <= t.height
  {
    Canvas(ThumbnailWidth, ThumbnailHeight, "RGB", fitted,
           CentreOffset(ThumbnailWidth, fitted.width),
           CentreOffset(ThumbnailHeight, fitted.height))
  }

  // -----------------------------------------------------------------------
  // Operations
  // -----------------------------------------------------------------------

  /** `store_image`. `freshId` stands for the generated UUID used when no id
      is given; `putError` is the failure of the full-image upload, which
      raises; `thumbnail` is the resized copy, or `None` when generating or
      uploading the thumbnail fails, which only leaves `thumbnail_url` as
      `None`. */
  function StoreImage(cfg: Config, b: Bucket, image: Image, imageId: Option<string>,
                      freshId: string, generateThumbnail: bool,
                      putError: Option<string>, thumbnail: Option<Image>): (r: Result<Stored, string>)
    ensures putError.Some? ==> r == Failure("Failed to store image: " + putError.value)
    ensures putError.None? ==> r.Success?
    ensures r.Success? ==>
      var id := r.value.result.id;
      var objs := r.value.bucket.objects;
      && id == (if imageId.Some? then imageId.value else freshId)
      && r.value.result.url == ObjectUrl(cfg.minioUrl, cfg.bucket, ImageObjectName(id))
      && ImageObjectName(id) in objs && objs[ImageObjectName(id)] == Png(image)
      && (r.value.result.thumbnailUrl.Some? <==> generateThumbnail && thumbnail.Some?)
      && (r.value.result.thumbnailUrl.Some? ==>
            && r.value.result.thumbnailUrl.value == ObjectUrl(cfg.minioUrl, cfg.bucket, ThumbObjectName(id))
            && ThumbObjectName(id) in objs
            && objs[ThumbObjectName(id)] == Png(GenerateThumbnail(thumbnail.value)))
      && (forall n :: n in b.objects && n != ImageObjectName(id) && n != ThumbObjectName(id) ==>
            n in objs && objs[n] == b.objects[n])
      && objs.Keys <= b.objects.Keys + {ImageObjectName(id), ThumbObjectName(id)}
  {
    var id := if imageId.Some? then imageId.value else freshId;
    if putError.Some? then Failure("Failed to store image: " + putError.value)
    else
      ImageAndThumbNamesDiffer(id, id);
      var full := ImageObjectName(id);
      var withFull := b.objects[full := Png(image)];
      var result := StoreResult(id, ObjectUrl(cfg.minioUrl, cfg.bucket, full), None);
      if generateThumbnail && thumbnail.Some? then
        var thumbName := ThumbObjectName(id);
        Success(Stored(Bucket(withFull[thumbName := Png(GenerateThumbnail(thumbnail.value))]),
                       result.(thumbnailUrl := Some(ObjectUrl(cfg.minioUrl, cfg.bucket, thumbName)))))
      else
        Success(Stored(Bucket(withFull), result))
  }

  /** Stand-ins for the library's own exception texts (the S3 error for a
      missing key and PIL's error for bytes that are no image); the real
      texts carry more detail, such as the object name. */
  const NoSuchKey: string := "The specified key does not exist."
  const NotAnImage: string := "cannot identify image file"

  /** `get_image`: reads the object named by the id; any failure raises with
      the "Failed to retrieve image: " prefix. */
  function GetImage(b: Bucket, imageId: string, getError: Option<string>): (r: Result<Image, string>)
    ensures r.Failure? ==> StartsWith(r.error, "Failed to retrieve image: ")
    ensures r.Success? <==>
      getError.None? && ImageObjectName(imageId) in b.objects
      && b.objects[ImageObjectName(imageId)].Png?
    ensures r.Success? ==> b.objects[ImageObjectName(imageId)] == Png(r.value)
  {
    var prefix := "Failed to retrieve image: ";
    var name := ImageObjectName(imageId);
    if getError.Some? then Failure(prefix + getError.value)
    else if name !in b.objects then Failure(prefix + NoSuchKey)
    else match b.objects[name]
      case Png(img) => Success(img)
      case Json(_, _) => Failure(prefix + NotAnImage)
  }

  /** `delete_image`: removes the image object (a missing object is not an
      error); a failing call reports `false` instead of raising. */
  function DeleteImage(b: Bucket, imageId: string, removeError: bool): (r: (Bucket, bool))
    ensures r.1 <==> !removeError
    ensures !r.1 ==> r.0 == b
    ensures r.1 ==> ImageObjectName(imageId) !in r.0.objects
    ensures forall n :: n in b.objects && n != ImageObjectName(imageId) ==>
      n in r.0.objects && r.0.objects[n] == b.objects[n]
    ensures r.0.objects.Keys <= b.objects.Keys
  {
    if removeError then (b, false)
    else (Bucket(b.objects - {ImageObjectName(imageId)}), true)
  }

  /** `s` up to and including its first '/', or all of `s` when it has
      none. */
  function UpToSlash(s: string): (r: string)
    ensures '/' !in s ==> r == s
    ensures '/' in s ==> 0 < |r| <= |s| && r == s[..|r|] && r[|r| - 1] == '/' && '/' !in r[..|r| - 1]
  {
    if |s| == 0 then ""
    else if s[0] == '/' then "/"
    else
      var rest := UpToSlash(s[1..]);
      assert '/' in s ==> '/' in s[1..];
      [s[0]] + rest
  }

  /** The entry a non-recursive listing shows for object `n`: the name
      itself when nothing below `prefix` holds a '/', otherwise the "folder"
      up to the first '/' after the prefix. */
  function ListedName(n: string, prefix: string): string
    requires StartsWith(n, prefix)
  {
    prefix + UpToSlash(n[|prefix|..])
  }

  /** Some object under `prefix` is listed as `x`. */
  predicate ListedUnder(b: Bucket, prefix: string, x: string) {
    exists n :: n in b.objects && StartsWith(n, prefix) && x == ListedName(n, prefix)
  }

  /** `list_images`: `list_objects` without `recursive=True` lists one level
      below the prefix, so an object nested deeper shows as its folder name
      ending in '/'; a failing call yields the empty list instead of
      raising. */
  function ListImages(b: Bucket, prefix: string, listError: bool): (r: set<string>)
    ensures listError ==> r == {}
    ensures !listError ==> forall x :: x in r <==> ListedUnder(b, prefix, x)
    ensures !listError ==> forall n :: n in b.objects && StartsWith(n, prefix) ==> ListedName(n, prefix) in r
  {
    if listError then {} else set n | n in b.objects && StartsWith(n, prefix) :: ListedName(n, prefix)
  }

  /** An image whose id holds a '/' is not listed under its own name but
      as the folder named by the id's first segment. */
  lemma NestedImageListedAsFolder(b: Bucket, a: string, c: string)
    requires '/' !in a && ImageObjectName(a + "/" + c) in b.objects
    ensures "images/" + a + "/" in ListImages(b, "images/", false)
    ensures ImageObjectName(a + "/" + c) !in ListImages(b, "images/", false)
  {
    var n := ImageObjectName(a + "/" + c);
    NestedImageName(a, c);
    UpToSlashAt(a, c + ".png");
    assert ListedName(n, "images/") == "images/" + a + "/";
    NotListedUnder(b, "images/", n);
  }

  /** A name with a '/' after the prefix that does not end in '/' is no
      listed entry. */
  lemma NotListedUnder(b: Bucket, prefix: string, n: string)
    requires StartsWith(n, prefix) && '/' in n[|prefix|..] && n[|n| - 1] != '/'
    ensures n !in ListImages(b, prefix, false)
  {
    if ListedUnder(b, prefix, n) {
      var m :| m in b.objects && StartsWith(m, prefix) && n == ListedName(m, prefix);
      ListedNameShape(m, prefix);
    }
  }

  /** The object name of a nested id: under "images/", with the id's
      segments after the prefix, ending in 'g'. */
  lemma NestedImageName(a: string, c: string)
    ensures var n := ImageObjectName(a + "/" + c);
      && StartsWith(n, "images/") && n[7..] == a + "/" + (c + ".png")
      && '/' in n[7..] && n[|n| - 1] == 'g'
  {
    var n := ImageObjectName(a + "/" + c);
    assert n[..7] == "images/";
    assert n[7..] == a + "/" + (c + ".png");
    assert n[7..][|a|] == '/';
  }

  /** A listed entry is either the object's own name, with no '/' after the
      prefix, or a folder name ending in '/'. */
  lemma ListedNameShape(n: string, prefix: string)
    requires StartsWith(n, prefix)
    ensures var x := ListedName(n, prefix);
      ('/' !in n[|prefix|..] && x == n) || (|x| > 0 && x[|x| - 1] == '/')
  {
    var rest := n[|prefix|..];
    if '/' !in rest {
      assert n == prefix + rest;
    }
  }

  /** The folder of `a + "/" + c` is `a + "/"` when `a` holds no '/'. */
  lemma {:induction false} UpToSlashAt(a: string, c: string)
    requires '/' !in a
    ensures UpToSlash(a + "/" + c) == a + "/"
    decreases |a|
  {
    if |a| > 0 {
      assert (a + "/" + c)[1..] == a[1..] + "/" + c;
      UpToSlashAt(a[1..], c);
    }
  }

  /** `get_presigned_url`: the client signs the image object's name; a
      failure raises with the "Failed to generate presigned URL: " prefix. */
  function PresignedUrl(cfg: Config, imageId: string, sign: (string, string) -> string,
                        signError: Option<string>): (r: Result<string, string>)
    ensures signError.Some? <==> r.Failure?
    ensures r.Failure? ==> StartsWith(r.error, "Failed to generate presigned URL: ")
    ensures r.Success? ==> r.value == sign(cfg.bucket, ImageObjectName(imageId))
  {
    if signError.Some? then Failure("Failed to generate presigned URL: " + signError.value)
    else Success(sign(cfg.bucket, ImageObjectName(imageId)))
  }

  /** What `store_image` stores, `get_image` returns, and, for an id
      without '/', `list_images` lists under "images/"; the presigned URL
      signs the same name. */
  lemma StoreThenAccess(cfg: Config, b: Bucket, image: Image, imageId: Option<string>,
                        freshId: string, generateThumbnail: bool, thumbnail: Option<Image>,
                        sign: (string, string) -> string)
    ensures var r := StoreImage(cfg, b, image, imageId, freshId, generateThumbnail, None, thumbnail);
      var id := r.value.result.id;
      && GetImage(r.value.bucket, id, None) == Success(image)
      && ('/' !in id ==> ImageObjectName(id) in ListImages(r.value.bucket, "images/", false))
      && PresignedUrl(cfg, id, sign, None) == Success(sign(cfg.bucket, ImageObjectName(id)))
  {
    var r := StoreImage(cfg, b, image, imageId, freshId, generateThumbnail, None, thumbnail);
    var id := r.value.result.id;
    assert StartsWith(ImageObjectName(id), "images/") by {
      assert ImageObjectName(id)[..7] == "images/";
    }
    if '/' !in id {
      assert ImageObjectName(id)[7..] == id + ".png";
      assert '/' !in ".png";
      assert '/' !in id + ".png";
    }
  }

  /** After a successful delete the image cannot be read back, and every
      other id reads exactly as before. */
  lemma DeleteThenGet(b: Bucket, imageId: string, other: string)
    ensures var b' := DeleteImage(b, imageId, false).0;
      && GetImage(b', imageId, None).Failure?
      && (other != imageId ==> GetImage(b', other, None) == GetImage(b, other, None))
  {
    ImageObjectNameInjective(imageId, other);
  }

  // -----------------------------------------------------------------------
  // Metadata
  // -----------------------------------------------------------------------

  predicate IsAscii(s: string) {
    forall i :: 0 <= i < |s| ==> s[i] as int < 128
  }

  /** Bytes of the UTF-8 encoding of a string. */
  function Utf8Length(s: string): (n: nat)
    ensures n >= |s|
    decreases |s|
  {
    if |s| == 0 then 0
    else
      var c := s[0] as int;
      (if c < 0x80 then 1 else if c < 0x800 then 2 else if c < 0x10000 then 3 else 4)
      + Utf8Length(s[1..])
  }

  /** The character count equals the UTF-8 byte count exactly for ASCII
      text. */
  lemma {:induction false} Utf8LengthIsCharCount(s: string)
    ensures Utf8Length(s) == |s| <==> IsAscii(s)
    decreases |s|
  {
    if |s| > 0 {
      Utf8LengthIsCharCount(s[1..]);
      assert IsAscii(s) <==> s[0] as int < 128 && IsAscii(s[1..]) by {
        assert forall i :: 0 <= i < |s[1..]| ==> s[1..][i] == s[i + 1];
        assert forall i :: 1 <= i < |s| ==> s[i] == s[1..][i - 1];
      }
    }
  }

  function HexDigit(d: nat): char
    requires d < 16
  {
    if d < 10 then DigitChar(d) else ('a' as int + d - 10) as char
  }

  /** Four lower-case hexadecimal digits. */
  function Hex4(n: nat): (r: string)
    requires n < 0x10000
    ensures |r| == 4 && IsAscii(r)
  {
    [HexDigit(n / 4096), HexDigit(n / 256 % 16), HexDigit(n / 16 % 16), HexDigit(n % 16)]
  }

  /** `json.dumps`'s default `ensure_ascii` escaping of one character: DEL
      and every non-ASCII character become `\uXXXX`, outside the Basic
      Multilingual Plane as a surrogate pair. */
  function EscapeChar(c: char): (r: string)
    ensures IsAscii(r)
    ensures c as int < 127 ==> r == [c]
    ensures c as int >= 127 ==> |r| >= 6 && r[..2] == "\\u"
  {
    var n := c as int;
    if n < 127 then [c]
    else if n < 0x10000 then "\\u" + Hex4(n)
    else
      var m := n - 0x10000;
      "\\u" + Hex4(0xD800 + m / 1024) + "\\u" + Hex4(0xDC00 + m % 1024)
  }

  /** The escaping pass over a whole text: the output is pure ASCII, and
      text already below DEL passes through unchanged. */
  function EnsureAscii(s: string): (r: string)
    ensures IsAscii(r)
    ensures (forall i :: 0 <= i < |s| ==> s[i] as int < 127) ==> r == s
    decreases |s|
  {
    if |s| == 0 then ""
    else
      var head := EscapeChar(s[0]);
      var tail := EnsureAscii(s[1..]);
      EnsureAsciiStep(s, head, tail);
      head + tail
  }

  lemma EnsureAsciiStep(s: string, head: string, tail: string)
    requires |s| > 0 && head == EscapeChar(s[0]) && IsAscii(tail)
    requires (forall i :: 0 <= i < |s[1..]| ==> s[1..][i] as int < 127) ==> tail == s[1..]
    ensures IsAscii(head + tail)
    ensures (forall i :: 0 <= i < |s| ==> s[i] as int < 127) ==> head + tail == s
  {
    if forall i :: 0 <= i < |s| ==> s[i] as int < 127 {
      assert forall i :: 0 <= i < |s[1..]| ==> s[1..][i] == s[i + 1];
      assert s == [s[0]] + s[1..];
    }
  }

  /** `store_metadata`: the JSON text (the serialiser's output before ASCII
      escaping is `rawJson`) is written under the metadata name with its
      character count as the declared length, and its public URL is
      returned. */
  function StoreMetadata(cfg: Config, b: Bucket, imageId: string, rawJson: string,
                         putError: Option<string>): (r: Result<(Bucket, string), string>)
    ensures putError.Some? <==> r.Failure?
    ensures r.Failure? ==> StartsWith(r.error, "Failed to store metadata: ")
    ensures r.Success? ==>
      && r.value.1 == ObjectUrl(cfg.minioUrl, cfg.bucket, MetadataObjectName(imageId))
      && MetadataObjectName(imageId) in r.value.0.objects
      && var obj := r.value.0.objects[MetadataObjectName(imageId)];
         obj.Json? && obj.declaredLength == |obj.text|
  {
    if putError.Some? then Failure("Failed to store metadata: " + putError.value)
    else
      var text := EnsureAscii(rawJson);
      var name := MetadataObjectName(imageId);
      Success((Bucket(b.objects[name := Json(text, |text|)]), ObjectUrl(cfg.minioUrl, cfg.bucket, name)))
  }

  /** The text Python gives when the bytes of a PNG object are decoded as
      UTF-8: the PNG signature starts with byte 0x89. */
  const NotUtf8: string := "'utf-8' codec can't decode byte 0x89 in position 0: invalid start byte"

  /** `get_metadata`: reads the metadata object of the id and returns its
      JSON text; any failure raises with the "Failed to retrieve metadata: "
      prefix. */
  function GetMetadata(b: Bucket, imageId: string, getError: Option<string>): (r: Result<string, string>)
    ensures r.Failure? ==> StartsWith(r.error, "Failed to retrieve metadata: ")
    ensures r.Success? <==>
      getError.None? && MetadataObjectName(imageId) in b.objects
      && b.objects[MetadataObjectName(imageId)].Json?
    ensures r.Success? ==> r.value == b.objects[MetadataObjectName(imageId)].text
  {
    var prefix := "Failed to retrieve metadata: ";
    var name := MetadataObjectName(imageId);
    if getError.Some? then Failure(prefix + getError.value)
    else if name !in b.objects then Failure(prefix + NoSuchKey)
    else match b.objects[name]
      case Json(text, _) => Success(text)
      case Png(_) => Failure(prefix + NotUtf8)
  }

  /** Stored metadata reads back as the serialiser's ASCII-escaped text,
      and storing it leaves every image where it was. */
  lemma StoreThenGetMetadata(cfg: Config, b: Bucket, imageId: string, rawJson: string, other: string)
    ensures var b' := StoreMetadata(cfg, b, imageId, rawJson, None).value.0;
      && GetMetadata(b', imageId, None) == Success(EnsureAscii(rawJson))
      && GetImage(b', other, None) == GetImage(b, other, None)
  {
    assert MetadataObjectName(imageId)[0] == 'm' && ImageObjectName(other)[0] == 'i';
  }

  /** Because the serialiser escapes to ASCII, the declared length of a
      stored metadata object always equals the number of bytes written. */
  lemma MetadataLengthIsByteLength(cfg: Config, b: Bucket, imageId: string, rawJson: string)
    ensures var r := StoreMetadata(cfg, b, imageId, rawJson, None);
      var obj := r.value.0.objects[MetadataObjectName(imageId)];
      obj.declaredLength == Utf8Length(obj.text)
  {
    Utf8LengthIsCharCount(EnsureAscii(rawJson));
  }
}
