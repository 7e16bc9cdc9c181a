/**
 * The media-URL helpers. The delivery network is not configured, so the URL builders hand
 * back the public id unchanged and the thumbnail is a fixed placeholder; the srcset, the
 * public-id extraction and the network check are plain string operations.
 */
module Cdn {
  import opened Wrappers
  import opened JsStrings

  /** The optional transformations a caller may pass (width, height, quality, format, ...). */
  datatype Transformations = Transformations(
    width: Option<nat>, height: Option<nat>, quality: Option<string>, format: Option<string>)

  const VideoPlaceholder: string := "/placeholder-video-thumbnail.jpg"
  const DefaultSizes: seq<nat> := [400, 800, 1200, 1600, 2000]

  /** `getOptimizedImageUrl`. */
  function GetOptimizedImageUrl(publicId: string, t: Transformations): (url: string) {
    publicId
  }

  /** `getOptimizedVideoUrl`. */
  function GetOptimizedVideoUrl(publicId: string, t: Transformations): (url: string) {
    publicId
  }

  /** `getVideoThumbnail`. */
  function GetVideoThumbnail(publicId: string, t: Transformations): (url: string) {
    VideoPlaceholder
  }

  /** While no network is configured, the URLs ignore every transformation. */
  lemma UrlsIgnoreTransformations(publicId: string, t: Transformations, u: Transformations)
    ensures GetOptimizedImageUrl(publicId, t) == GetOptimizedImageUrl(publicId, u) == publicId
    ensures GetOptimizedVideoUrl(publicId, t) == GetOptimizedVideoUrl(publicId, u) == publicId
    ensures GetVideoThumbnail(publicId, t) == GetVideoThumbnail(publicId, u) == VideoPlaceholder
  {
  }

  function DigitChar(d: nat): (c: char)
    requires d < 10
    ensures IsAsciiDigit(c)
  {
    "0123456789"[d]
  }

  /** A whole number written in decimal, as a template literal renders it. */
  function DecimalString(n: nat): (s: string)
    ensures s != []
    ensures forall i :: 0 <= i < |s| ==> IsAsciiDigit(s[i])
  {
    if n < 10 then [DigitChar(n)] else DecimalString(n / 10) + [DigitChar(n % 10)]
  }

  /** Reading decimal digits back, most significant first. */
  function ParseDecimal(s: string): int
    requires forall i :: 0 <= i < |s| ==> IsAsciiDigit(s[i])
  {
    if s == [] then 0 else ParseDecimal(s[..|s| - 1]) * 10 + (s[|s| - 1] as int - '0' as int)
  }

  lemma DigitValue(d: nat)
    requires d < 10
    ensures DigitChar(d) as int - '0' as int == d
  {
  }

  /** The decimal rendering names the number it came from. */
  lemma {:induction false} DecimalRoundTrip(n: nat)
    ensures ParseDecimal(DecimalString(n)) == n
    decreases n
  {
    var s := DecimalString(n);
    if n < 10 {
      DigitValue(n);
      assert s[..0] == [];
    } else {
      DecimalRoundTrip(n / 10);
      DigitValue(n % 10);
      assert s[..|s| - 1] == DecimalString(n / 10);
    }
  }

  /** One srcset entry: `url widthw`. */
  function SrcSetEntry(publicId: string, width: nat): string {
    GetOptimizedImageUrl(publicId, Transformations(Some(width), None, Some("80"), Some("auto")))
    + " " + DecimalString(width) + "w"
  }

  /** `getResponsiveImageSrcSet`. */
  function GetResponsiveImageSrcSet(publicId: string, sizes: seq<nat>): (srcset: string)
    ensures sizes == [] ==> srcset == []
    ensures |sizes| == 1 ==> srcset == SrcSetEntry(publicId, sizes[0])
  {
    Join(seq(|sizes|, k requires 0 <= k < |sizes| => SrcSetEntry(publicId, sizes[k])), ", ")
  }

  /**
   * For a public id without commas, cutting the srcset at its commas gives one entry per
   * size, in the order of the sizes, each after a single space but the first.
   */
  lemma OneEntryPerSize(publicId: string, sizes: seq<nat>)
    requires sizes != [] && ',' !in publicId
    ensures |Split(GetResponsiveImageSrcSet(publicId, sizes), ',')| == |sizes|
    ensures Split(GetResponsiveImageSrcSet(publicId, sizes), ',')[0] == SrcSetEntry(publicId, sizes[0])
    ensures forall k :: 0 < k < |sizes| ==>
      Split(GetResponsiveImageSrcSet(publicId, sizes), ',')[k] == " " + SrcSetEntry(publicId, sizes[k])
  {
    var entries := seq(|sizes|, k requires 0 <= k < |sizes| => SrcSetEntry(publicId, sizes[k]));
    forall k | 0 <= k < |entries| ensures ',' !in entries[k] {
      var digits := DecimalString(sizes[k]);
      assert entries[k] == publicId + " " + digits + "w";
      forall i | 0 <= i < |entries[k]| ensures entries[k][i] != ',' {
        if i < |publicId| {
          assert entries[k][i] == publicId[i];
        } else if |publicId| < i < |publicId| + 1 + |digits| {
          assert entries[k][i] == digits[i - |publicId| - 1];
        }
      }
    }
    assert ", " == [','] + " ";
    SplitJoinGlued(entries, ',', " ");
  }

  /** The default sizes give five entries. */
  lemma DefaultSrcSetHasFiveEntries(publicId: string)
    requires ',' !in publicId
    ensures |Split(GetResponsiveImageSrcSet(publicId, DefaultSizes), ',')| == 5
  {
    OneEntryPerSize(publicId, DefaultSizes);
  }

  /** `extractPublicIdFromUrl`: the last path segment up to its first dot, else the URL. */
  function ExtractPublicIdFromUrl(url: string): (id: string)
    ensures id == url || (id != [] && '/' !in id && '.' !in id)
  {
    var segments := Split(url, '/');
    var last := segments[|segments| - 1];
    var stem := Split(last, '.')[0];
    SplitPiecesLack(last, '.', '/');
    if stem == [] then url else stem
  }

  /** A URL ending in `/stem.ext` yields the stem. */
  lemma ExtractsFileStem(prefix: string, stem: string, ext: string)
    requires stem != [] && '/' !in stem && '.' !in stem && '/' !in ext
    ensures ExtractPublicIdFromUrl(prefix + "/" + stem + "." + ext) == stem
  {
    var file := stem + "." + ext;
    assert '/' !in file;
    assert prefix + "/" + stem + "." + ext == prefix + ['/'] + file;
    SplitLast(prefix, file, '/');
    SplitAtFirst(stem, ext, '.');
  }

  /** A name with neither slash nor dot is its own public id. */
  lemma PlainNameIsItsOwnId(name: string)
    requires '/' !in name && '.' !in name
    ensures ExtractPublicIdFromUrl(name) == name
  {
    SplitNoSeparator(name, '/');
    SplitNoSeparator(name, '.');
  }

  const CloudinaryHost: string := "cloudinary.com"
  const OwnHost: string := "your-cdn-domain.com"

  /** `isCDNUrl`. */
  predicate IsCdnUrl(url: string) {
    Contains(url, CloudinaryHost) || Contains(url, OwnHost)
  }

  /** Any URL that mentions one of the two hosts is recognised. */
  lemma HostsRecognised(a: string, b: string)
    ensures IsCdnUrl(a + CloudinaryHost + b)
    ensures IsCdnUrl(a + OwnHost + b)
  {
    ContainsInfix(a, CloudinaryHost, b);
    ContainsInfix(a, OwnHost, b);
  }

  /** A URL is recognised exactly when one of the two host names occurs in it at some position. */
  lemma CdnUrlIffHostOccurs(url: string)
    ensures IsCdnUrl(url) <==> (exists i :: OccursAt(url, CloudinaryHost, i)) || (exists i :: OccursAt(url, OwnHost, i))
  {
    ContainsAt(url, CloudinaryHost);
    ContainsAt(url, OwnHost);
  }

  /** A URL with neither a `c` nor a `y` cannot mention either host. */
  lemma OtherUrlsRejected(url: string)
    requires 'c' !in url && 'y' !in url
    ensures !IsCdnUrl(url)
  {
    MissingFirstChar(url, CloudinaryHost);
    MissingFirstChar(url, OwnHost);
  }
}
