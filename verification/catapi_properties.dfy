/** Properties of the CatAPI repository model that relate several calls, or
    that pin its URLs and titles down to concrete values. */
module CatApiProperties {
  import opened Wrappers
  import opened Text
  import opened CatApi

  /** The endpoint path `/images/get` loses its leading slash to `trim` and
      gets it back from `build_request`: the request goes to the API base
      followed by the endpoint path. */
  lemma {:induction false} ImagesGetAddress(params: seq<Param>)
    ensures BuildRequest(ImagesGet, params).address == Api + ImagesGet
  {
    assert ImagesGet[1..] == "images/get";
    BuildRequestOneLeadingSlash(ImagesGet, params);
  }

  /** A path with exactly one leading slash and none at the end is appended
      to the base as it is: the slash `trim` removes is the one
      `build_request` puts back. */
  lemma {:induction false} BuildRequestOneLeadingSlash(uri: string, params: seq<Param>)
    requires |uri| > 0 && uri[0] == '/' && NoEdgeSlash(uri[1..])
    ensures BuildRequest(uri, params).address == Api + uri
  {
    var tail := uri[1..];
    SlashThenRest(uri);
    TrimUnique("/", tail, []);
    Assoc(Api, "/", tail);
  }

  /** The listing request always goes to the images endpoint asking for XML
      and twenty results; nothing about it depends on the page. */
  lemma {:induction false} MainRequestUrl()
    ensures MainRequest() == Url(Api + "/images/get",
                                 [Param("format", "xml"), Param("results_per_page", "20")])
  {
    ImagesGetAddress(MainRequest().params);
  }

  /** A thumbnail asks the images endpoint for the small rendition of the
      image with that identifier. */
  lemma {:induction false} ThumbnailUrl(id: string)
    ensures ThumbnailRequest(id) == Url(Api + "/images/get",
                                        [Param("image_id", id), Param("size", "small")])
  {
    ImagesGetAddress(ThumbnailRequest(id).params);
  }

  /** A string starting with a slash is that slash followed by the rest,
      written in the `a + m + b` shape `TrimUnique` takes (with an empty
      `b`). A proof step only, named so the solver need not find it. */
  lemma SlashThenRest(uri: string)
    requires |uri| > 0 && uri[0] == '/'
    ensures uri == "/" + uri[1..] + []
  {
  }

  /** Every field of the entry made from one image: its title, its URL as
      source, the small-thumbnail request for its id, and a 64 by 64
      thumbnail. */
  lemma {:induction false} EntryFields(image: Image)
    ensures ItemOf(image).title == Title(image)
    ensures ItemOf(image).source == image.url
    ensures ItemOf(image).thumbnail == Url(Api + "/images/get",
                                           [Param("image_id", image.id), Param("size", "small")])
    ensures ItemOf(image).thumbnailWidth == 64 && ItemOf(image).thumbnailHeight == 64
  {
    ThumbnailUrl(image.id);
  }

  /** Slashes added to or removed from either end of the path do not change
      the URL `build_request` makes. */
  lemma {:induction false} BuildRequestIgnoresEdgeSlashes(a: string, uri: string, b: string, params: seq<Param>)
    requires AllSlashes(a) && AllSlashes(b)
    ensures BuildRequest(a + uri + b, params) == BuildRequest(uri, params)
  {
    TrimIgnoresEdgeSlashes(a, uri, b);
  }

  /** A path with no slash at either end is appended to the base as it is. */
  lemma {:induction false} BuildRequestKeepsInnerPath(uri: string, params: seq<Param>)
    requires NoEdgeSlash(uri)
    ensures BuildRequest(uri, params).address == Api + "/" + uri
  {
    Unwrap(uri);
    TrimUnique([], uri, []);
  }

  /** Mapping the images of two consecutive runs of elements gives the
      entries of the first run followed by those of the second: entries are
      produced one per element, in document order. */
  lemma {:induction false} MapImagesAppend(a: seq<Image>, b: seq<Image>)
    ensures MapImages(a + b) == MapImages(a) + MapImages(b)
  {
    if |a| == 0 {
      assert a + b == b;
    } else {
      assert (a + b)[1..] == a[1..] + b;
      MapImagesAppend(a[1..], b);
    }
  }

  /** The listing depends on the remote service only through the reply to
      the listing request, and not at all on the path. */
  lemma ListingDependsOnlyOnMainReply(path1: string, path2: string, page: string,
                                      fetch1: Url -> Reply, fetch2: Url -> Reply)
    requires fetch1(MainRequest()) == fetch2(MainRequest())
    ensures GetListing(path1, page, fetch1) == GetListing(path2, page, fetch2)
  {
  }

  /** Two page arguments give the same outcome and the same entries: the
      page is echoed back and never reaches the request. */
  lemma {:induction false} PageOnlyEchoed(path: string, page1: string, page2: string, fetch: Url -> Reply)
    ensures GetListing(path, page1, fetch).Success? == GetListing(path, page2, fetch).Success?
    ensures GetListing(path, page1, fetch).Failure? ==>
              GetListing(path, page1, fetch).error == GetListing(path, page2, fetch).error
    ensures GetListing(path, page1, fetch).Success? ==>
              GetListing(path, page1, fetch).value.list == GetListing(path, page2, fetch).value.list
  {
  }

  /** A response whose `<images>` element is present but empty is a listing
      with no entries, while one without `<images>` is an error. */
  lemma {:induction false} EmptyImagesIsNotMissingImages(path: string, page: string, fetch: Url -> Reply)
    ensures fetch(MainRequest()) == Received(Root(Some(Data(Some([]))))) ==>
              GetListing(path, page, fetch).Success? && GetListing(path, page, fetch).value.list == []
    ensures fetch(MainRequest()) == Received(Root(Some(Data(None)))) ==>
              GetListing(path, page, fetch) == Failure(NoImagesFound)
  {
  }

  /** The reference characterisation of the extension: whenever a URL ends
      in a dot followed by dot-free text, that is its extension. */
  lemma {:induction false} ExtensionUnique(url: string, front: string, ext: string)
    requires url == front + ext
    requires |ext| > 0 && ext[0] == '.' && '.' !in ext[1..]
    ensures Extension(url) == ext
  {
    assert url[|front|] == '.';
  }

  /** An image whose URL ends in a dot followed by dot-free text is titled
      with its id followed by that text, dot included. */
  lemma {:induction false} TitleFromLastDot(image: Image, front: string, ext: string)
    requires image.url == front + ext
    requires |ext| > 0 && ext[0] == '.' && '.' !in ext[1..]
    ensures Title(image) == image.id + ext
  {
    ExtensionUnique(image.url, front, ext);
  }

  /** A URL without any dot is appended whole to the identifier. */
  lemma {:induction false} TitleWithoutDot(image: Image)
    requires '.' !in image.url
    ensures Title(image) == image.id + image.url
  {
  }

  /** The worked example: image 42 at `http://x/y/cat.jpg` is titled
      `42.jpg`. */
  lemma TitleExample()
    ensures Title(Image("42", "http://x/y/cat.jpg")) == "42.jpg"
  {
  }
}
