# CatAPI repository, modelled in Dafny

`repository_catapi` is a Moodle file-picker repository that lists pictures
from thecatapi.com. Its one piece of logic is `get_listing`: ask the API's
`/images/get` endpoint for twenty images as XML, check that the response has
a `<data><images>` structure, and turn every `<image>` into a picker entry
whose title is the image id followed by the URL's extension, whose source is
the URL, and whose thumbnail is another `/images/get` request for the small
rendition. Around it sit `build_request` (API base, one slash, path with its
edge slashes trimmed, query parameters) and `check_login` (always true).

The model is pure and functional:

- `wrappers.dfy`: `Option` and `Result`.
- `text.dfy` (module `Text`): the PHP built-ins the plugin relies on, in the
  form it calls them: `trim($s, '/')` (`TrimLeft`, `TrimRight`, `Trim`),
  `strrpos($s, '.')` (`LastIndexOf`) and `substr($s, $start)` (`SuffixFrom`),
  with the characterisation of `trim` proved (`TrimSplit`, `TrimUnique`).
- `catapi.dfy` (module `CatApi`): the parsed response (`Xml`, `Data`,
  `Image`), the listing record (`Listing`, `Item`, `Page`), the two
  exceptions (`Error`), and the operations `BuildRequest`, `CheckLogin`,
  `Request`, `Extension`, `MapImages`, `NormalisePage` and `GetListing`.
- `catapi_properties.dfy` (module `CatApiProperties`): lemmas relating
  several calls: the concrete request and thumbnail URLs, slash-insensitivity
  of `build_request`, order preservation of the mapping, independence of the
  listing from the path and the page, empty versus missing `<images>`, and
  worked title examples.

The HTTP client and the XML parser are replaced by one total function
parameter `fetch: Url -> Reply`, where a `Reply` is either `TransportFailed`
(curl reported an error) or `Received(xml)` (the parsed body; `Malformed`
stands for `simplexml_load_string` returning `false`). Since `GetListing`
is a function of its arguments, two calls with the same arguments give the
same result.

Two behaviours of the code shape the model:

- The page argument is passed back as given (lib.php:80): `"3"` comes back
  as the string `"3"`, not the integer 3, so `Page` is either
  `PageNumber(1)` or `PageText(page)`.
- Reading `data` from an unparsable response gives PHP `null`
  (lib.php:86-90), so malformed XML ends in the same "No images found."
  error as a missing `<data>`.

## Model

| member | source | states |
|---|---|---|
| Text.TrimLeftShape | lib.php:50 | what `ltrim($s, '/')` keeps is a suffix of the input, everything cut off is a slash, and what is kept does not start with a slash |
| Text.TrimRightShape | lib.php:50 | what `rtrim($s, '/')` keeps is a prefix of the input, everything cut off is a slash, and what is kept does not end with a slash |
| Text.TrimShape | lib.php:50 | `trim($uri, '/')` never starts or ends with a slash and is no longer than its input |
| Text.TrimSplit | lib.php:50 | every string is its trimmed value wrapped in a run of slashes on each side |
| Text.TrimUnique | lib.php:50 | any edge-slash-free string wrapped in runs of slashes trims back to exactly itself (with TrimSplit, this pins `trim` down) |
| Text.TrimIgnoresEdgeSlashes | lib.php:50 | adding slashes at either end of a string does not change its trimmed value |
| Text.TrimIdempotent | lib.php:50 | trimming twice equals trimming once |
| Text.LastIndexOf | lib.php:95 | `strrpos` answers `false` exactly when the character is absent, and otherwise an index holding it with no occurrence after it |
| CatApi.BuildRequest | lib.php:49-53 | the address is the API base, one slash, then a part with no slash at either end and no longer than the path; the parameters are carried unchanged |
| CatApi.CheckLogin | lib.php:60-62 | the user always counts as logged in |
| CatApi.Request | lib.php:117-125 | a transport error, and only that, raises "Request to $uri failed." naming the unbuilt path; otherwise the parsed reply to the built URL is returned |
| CatApi.Extension | lib.php:95 | the extension is a suffix of the URL; with a dot in the URL it starts with a dot and holds no other dot; without one it is the whole URL |
| CatApi.MapImages | lib.php:93-105 | one entry per `<image>` element, same count, entry i made from element i |
| CatApi.NormalisePage | lib.php:80 | the page is the integer 1 exactly when the argument is PHP-falsy ("" or "0"), and otherwise the argument unchanged |
| CatApi.GetListing | lib.php:71-108 | a transport failure raises RequestFailed("/images/get"); a reply without `<data>` or `<images>` raises NoImagesFound and nothing else fails; a success carries all four flags true, pages -1, the normalised page, and exactly one entry per image in document order |
| CatApiProperties.BuildRequestOneLeadingSlash | lib.php:50 | a path with one leading slash and none trailing is appended to the API base as written |
| CatApiProperties.ImagesGetAddress | lib.php:84 | a request for `/images/get` goes to the API base followed by `/images/get` |
| CatApiProperties.MainRequestUrl | lib.php:84 | the listing request is `/images/get` with `format=xml` and `results_per_page=20`, fixed and independent of the page |
| CatApiProperties.ThumbnailUrl | lib.php:99 | a thumbnail is `/images/get` with `image_id` set to the image's id and `size=small` |
| CatApiProperties.EntryFields | lib.php:96-102 | an entry's title is the image's title, its source is the image URL unchanged, its thumbnail is the small-size `/images/get` request for the image id, and its thumbnail is 64 by 64 |
| CatApiProperties.BuildRequestIgnoresEdgeSlashes | lib.php:50 | changing only the leading or trailing slashes of the path does not change the built URL |
| CatApiProperties.BuildRequestKeepsInnerPath | lib.php:50 | a path without edge slashes is joined to the base with exactly one slash |
| CatApiProperties.MapImagesAppend | lib.php:94-105 | the entries of two consecutive runs of images are the entries of the first run followed by those of the second |
| CatApiProperties.ListingDependsOnlyOnMainReply | lib.php:71-108 | the listing depends on the remote service only through the reply to the listing request, and not at all on the path |
| CatApiProperties.PageOnlyEchoed | lib.php:80-84 | two page arguments give the same success or error and the same entries |
| CatApiProperties.EmptyImagesIsNotMissingImages | lib.php:89-105 | an empty `<images>` gives a listing with no entries, a missing `<images>` gives NoImagesFound |
| CatApiProperties.ExtensionUnique | lib.php:95 | whenever a URL ends in a dot followed by dot-free text, that text with its dot is the extension |
| CatApiProperties.TitleFromLastDot | lib.php:95-97 | an image whose URL ends in a dot followed by dot-free text is titled with its id followed by that text, dot included; the text may hold slashes, so a dot only in the host name of `http://x.com/cat` gives the extension `.com/cat` |
| CatApiProperties.TitleWithoutDot | lib.php:95-97 | an image whose URL holds no dot is titled with its id followed by the whole URL |
| CatApiProperties.TitleExample | lib.php:95-97 | image 42 at `http://x/y/cat.jpg` is titled `42.jpg` |

## Left out

- The curl transport in `request` (lib.php:117-125): the HTTP call is the `fetch` parameter; only its error/success outcome is modelled.
- XML parsing and the entity-loader toggle (lib.php:85-87): a foreign library with global state; `fetch` hands back the parsed `Xml`, and the safe-parser setting has no counterpart.
- SimpleXML details: `Data.images` being `Some` stands for the `<images>` element reading as present (truthy); a response with several `<data>` or `<images>` elements is represented by the first one, which is the one SimpleXML property access reads; non-`<image>` children of `<images>` are not represented.
- `moodle_url` (lib.php:50-51, 99): parsing of the address string, query-string encoding and `out(false)` are host code; a URL is kept as an address plus its parameter pairs, and a thumbnail is that value rather than its encoded string.
- The `repository` base class, `$OUTPUT` and `$CFG` (lib.php:27, 37, 72): host framework plumbing with no effect on the listing.
- version.php: plugin metadata constants with no behaviour.
- Strings are sequences of characters, whereas PHP's `trim`, `strrpos` and `substr` work on bytes; the model treats one character as one byte.
- The page argument is modelled as a string, the type the host passes; PHP truthiness of other value types is not modelled.
