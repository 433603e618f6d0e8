/** The CatAPI file-picker repository: the request builder, the login check
    and the listing transformation of `repository_catapi`.

    The HTTP transport and the XML parser are outside the model. Their
    combined effect is a total function `fetch` from the requested URL to a
    `Reply`: either the transport reported an error, or a body came back and
    was parsed into an `Xml` value. Because `fetch` is a parameter, the
    listing may look at nothing of the remote service except the one URL it
    asks for. */
module CatApi {
  import opened Wrappers
  import opened Text

  /** Base address of the remote API. */
  const Api: string := "http://thecatapi.com/api"

  /** The endpoint both the listing request and the thumbnails point at. */
  const ImagesGet: string := "/images/get"

  /** Fixed edge length, in pixels, the host is told to draw thumbnails at. */
  const ThumbnailSize: int := 64

  /** Number of images asked for per listing. */
  const ResultsPerPage: string := "20"

  /** Query parameters of the listing request. */
  const ListingParams: seq<Param> := [Param("format", "xml"), Param("results_per_page", ResultsPerPage)]

  /** One query-string parameter, kept unencoded. */
  datatype Param = Param(name: string, value: string)

  /** A request URL: an absolute address and its query parameters, in the
      order they were added. */
  datatype Url = Url(address: string, params: seq<Param>)

  /** One `<image>` child of `<images>`. An absent `<id>` or `<url>` child
      reads as the empty string, as it does when PHP casts a missing
      SimpleXML child to a string. */
  datatype Image = Image(id: string, url: string)

  /** The `<data>` element: its `<images>` child, if any, holds the `<image>`
      children in document order. */
  datatype Data = Data(images: Option<seq<Image>>)

  /** The parsed response. `Malformed` is the parser's `false`; reading
      `data` from it yields nothing, so it fails the structure check. */
  datatype Xml = Malformed | Root(data: Option<Data>)

  /** What the transport and parser together hand back for one URL. */
  datatype Reply = TransportFailed | Received(xml: Xml)

  /** The two exceptions the repository raises. */
  datatype Error =
    | RequestFailed(uri: string)  // "Request to $uri failed."
    | NoImagesFound               // "No images found."

  /** The `page` value of a listing: the integer default 1, or the caller's
      page argument passed back untouched. */
  datatype Page = PageNumber(n: int) | PageText(text: string)

  /** One entry of the file picker. */
  datatype Item = Item(
    title: string,
    source: string,
    thumbnail: Url,
    thumbnailHeight: int,
    thumbnailWidth: int)

  /** The record handed back to the host's file picker. */
  datatype Listing = Listing(
    list: seq<Item>,
    dynload: bool,
    nologin: bool,
    norefresh: bool,
    nosearch: bool,
    page: Page,
    pages: int)

  /** A PHP string converts to `false` exactly when it is "" or "0". */
  predicate PhpFalsy(s: string) {
    s == "" || s == "0"
  }

  /** `build_request`: the API base, one slash, and `uri` without any of its
      leading or trailing slashes, carrying `params` unchanged. */
  function BuildRequest(uri: string, params: seq<Param>): (url: Url)
    ensures url.params == params
    ensures |url.address| > |Api| && url.address[..|Api| + 1] == Api + "/"
    ensures NoEdgeSlash(url.address[|Api| + 1..])
    ensures |url.address| <= |Api| + 1 + |uri|
  {
    var tail := Trim(uri);
    TrimShape(uri);
    SplitConcat(Api + "/", tail);
    Url(Api + "/" + tail, params)
  }

  /** `check_login`: the remote API needs no credentials, so the user always
      counts as logged in. */
  function CheckLogin(): (loggedIn: bool)
    ensures loggedIn
  {
    true
  }

  /** The URL of the listing request: the images endpoint asking for XML and
      a fixed batch size. */
  function MainRequest(): (url: Url) {
    BuildRequest(ImagesGet, ListingParams)
  }

  /** The thumbnail URL of the image with identifier `id`. */
  function ThumbnailRequest(id: string): (url: Url) {
    BuildRequest(ImagesGet, [Param("image_id", id), Param("size", "small")])
  }

  /** `request`: asks `fetch` for the URL `build_request` makes of `uri` and
      `params`; a transport error becomes `RequestFailed`, naming the
      unbuilt `uri`. */
  function Request(uri: string, params: seq<Param>, fetch: Url -> Reply): (r: Result<Xml, Error>)
    ensures r.Failure? <==> fetch(BuildRequest(uri, params)).TransportFailed?
    ensures r.Failure? ==> r.error == RequestFailed(uri)
    ensures r.Success? ==> fetch(BuildRequest(uri, params)) == Received(r.value)
  {
    match fetch(BuildRequest(uri, params))
    case TransportFailed => Failure(RequestFailed(uri))
    case Received(xml) => Success(xml)
  }

  /** The file extension of an image URL: `substr($url, strrpos($url, '.'))`.
      It is the suffix of `url` that starts at the last dot. A URL with no
      dot makes `strrpos` answer `false`, which `substr` reads as offset 0,
      so the whole URL comes back. */
  function Extension(url: string): (ext: string)
    ensures |ext| <= |url| && ext == url[|url| - |ext|..]
    ensures '.' in url ==> |ext| > 0 && ext[0] == '.' && '.' !in ext[1..]
    ensures '.' !in url ==> ext == url
  {
    var dot := LastIndexOf(url, '.');
    assert dot.Some? ==> url[dot.value..][1..] == url[dot.value + 1..];
    SuffixFrom(url, dot)
  }

  /** The title of an image's entry: its id followed by its URL's
      extension. */
  function Title(image: Image): (title: string) {
    image.id + Extension(image.url)
  }

  /** The picker entry made from one `<image>` element. */
  function ItemOf(image: Image): (item: Item) {
    Item(
      title := Title(image),
      source := image.url,
      thumbnail := ThumbnailRequest(image.id),
      thumbnailHeight := ThumbnailSize,
      thumbnailWidth := ThumbnailSize)
  }

  /** The `foreach` over the `<image>` elements: one entry per element, in
      document order. */
  function MapImages(images: seq<Image>): (items: seq<Item>)
    ensures |items| == |images|
    ensures forall i :: 0 <= i < |images| ==> items[i] == ItemOf(images[i])
  {
    if |images| == 0 then []
    else [ItemOf(images[0])] + MapImages(images[1..])
  }

  /** The `page` the listing reports: 1 when the argument is PHP-falsy,
      otherwise the argument itself, neither parsed nor range-checked. */
  function NormalisePage(page: string): (p: Page)
    ensures p.PageNumber? <==> PhpFalsy(page)
    ensures p.PageNumber? ==> p.n == 1
    ensures p.PageText? ==> p.text == page
  {
    if PhpFalsy(page) then PageNumber(1) else PageText(page)
  }

  /** The `<image>` elements of a parsed response, or None when the response
      lacks `<data>` or its `<data>` lacks `<images>`. */
  function ImagesOf(xml: Xml): (images: Option<seq<Image>>) {
    match xml
    case Malformed => None
    case Root(None) => None
    case Root(Some(data)) => data.images
  }

  /** `get_listing`: fetch the listing request, check the response has
      `<data><images>`, and turn every `<image>` into a picker entry. The
      path is ignored and the page is only echoed back. */
  function GetListing(path: string, page: string, fetch: Url -> Reply): (r: Result<Listing, Error>)
    ensures fetch(MainRequest()).TransportFailed? ==> r == Failure(RequestFailed(ImagesGet))
    ensures fetch(MainRequest()).Received? ==>
              (r.Failure? <==> ImagesOf(fetch(MainRequest()).xml).None?)
    ensures fetch(MainRequest()).Received? && r.Failure? ==> r.error == NoImagesFound
    ensures r.Success? ==>
              && r.value.dynload && r.value.nologin && r.value.norefresh && r.value.nosearch
              && r.value.pages == -1
              && r.value.page == NormalisePage(page)
    ensures r.Success? ==>
              && fetch(MainRequest()).Received?
              && ImagesOf(fetch(MainRequest()).xml).Some?
              && var images := ImagesOf(fetch(MainRequest()).xml).value;
              && |r.value.list| == |images|
              && forall i :: 0 <= i < |images| ==> r.value.list[i] == ItemOf(images[i])
  {
    var result := Listing(
      list := [],
      dynload := true,
      nologin := true,
      norefresh := true,
      nosearch := true,
      page := NormalisePage(page),
      pages := -1);
    var xml :- Request(ImagesGet, ListingParams, fetch);
    match ImagesOf(xml)
    case None => Failure(NoImagesFound)
    case Some(images) => Success(result.(list := MapImages(images)))
  }
}
