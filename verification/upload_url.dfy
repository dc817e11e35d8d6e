/**
 * The `image_url` of a prediction: the fixed uploads route followed by the
 * filename the client sent, with no sanitising.
 */
module UploadUrl {
  import opened Results

  /** The route prefix under which stored uploads are served. */
  const Prefix: string := "/uploads/"

  /** The URL reported for an upload named `filename`. */
  function ImageUrl(filename: string): (url: string)
    ensures |url| == |Prefix| + |filename|
    ensures url[..|Prefix|] == Prefix
    ensures url[|Prefix|..] == filename
  {
    Prefix + filename
  }

  /**
   * The filename an uploads URL refers to: whatever follows the prefix, or
   * `None` when `url` does not start with the prefix.
   */
  function UploadedName(url: string): (name: Option<string>)
    ensures name.Some? <==> |Prefix| <= |url| && url[..|Prefix|] == Prefix
    ensures name.Some? ==> ImageUrl(name.value) == url
  {
    if |Prefix| <= |url| && url[..|Prefix|] == Prefix then Some(url[|Prefix|..]) else None
  }

  /** Every filename is recovered unchanged from its URL. */
  lemma NameRoundTrip(filename: string)
    ensures UploadedName(ImageUrl(filename)) == Some(filename)
  {
    var url := ImageUrl(filename);
    assert url[..|Prefix|] == Prefix;
  }

  /** Distinct filenames never share a URL. */
  lemma ImageUrlInjective(a: string, b: string)
    ensures ImageUrl(a) == ImageUrl(b) ==> a == b
  {
    if ImageUrl(a) == ImageUrl(b) {
      NameRoundTrip(a);
      NameRoundTrip(b);
    }
  }
}
