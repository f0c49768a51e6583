/** The browser front end (`frontend/script.js`): the checks it makes on a chosen image,
    the request it sends, how it reads the reply and the client-side similarity filter,
    and its page state as a controller object whose methods are the event handlers. */
module Frontend {
  import opened Wrappers
  import opened Text

  /** Upload limit of 5 MiB; a file of exactly this size is accepted. */
  const MaxImageBytes: nat := 5 * 1024 * 1024
  /** The "high similarity" threshold 0.8, in hundredths; the filter keeps scores strictly above it. */
  const HighSimilarity: int := 80

  const WrongTypeMessage: string := "Please select a valid image file (JPG, PNG, WebP)"
  const TooLargeMessage: string := "Image size should be less than 5MB"
  const UrlLoadFailedMessage: string := "Could not load image from URL. Please check the URL and try again."
  const NoImageMessage: string := "Please select an image first"
  const ServerFallbackMessage: string := "Something went wrong"
  const ClientFallbackMessage: string := "Failed to search for similar products. Please try again."

  /** A `File` picked or dropped by the user: its name, MIME type and size in bytes. */
  datatype File = File(name: string, mimeType: string, size: nat)

  /** The value of `currentUploadedImage` when it is not null: a file read as a data URL,
      kept with the file itself, or an image URL. */
  datatype UploadedImage = FileImage(data: string, file: File) | UrlImage(data: string)

  /** A product of the search reply; the similarity score is held in hundredths. */
  datatype Product = Product(name: string, category: string, price: string, imageUrl: string,
                             similarityScore: int)

  /** The verdict of the checks in `handleImageFile`. */
  datatype FileCheck = Rejected(message: string) | Readable

  /** The body of the POST to `/api/search`: a multipart form with the file as field
      `image`, or the JSON object `{url: ...}`. */
  datatype SearchRequest = MultipartImage(image: File) | JsonUrl(url: string)

  /** What the awaited `fetch` and `response.json()` produce: an exception (network failure
      or a body that is not JSON) with its message, or a decoded reply with `response.ok`,
      its `error` field and its `products` field (None when absent). */
  datatype Reply =
    | NoReply(message: string)
    | Replied(ok: bool, error: Option<string>, products: Option<seq<Product>>)

  /** How a search ends: products to display, or an error message to show. */
  datatype Outcome = Found(products: seq<Product>) | Problem(message: string)

  /** JavaScript's `s || fallback` on strings. */
  function OrElse(s: string, fallback: string): string {
    if s == "" then fallback else s
  }

  predicate IsImageType(mimeType: string) {
    "image/" <= mimeType
  }

  /** `handleImageFile`'s validation. The type is checked first, so a non-image is
      refused with the type message whatever its size; an image is refused only when it
      exceeds 5 MiB. */
  function CheckFile(file: File): (r: FileCheck)
    ensures !IsImageType(file.mimeType) ==> r == Rejected(WrongTypeMessage)
    ensures IsImageType(file.mimeType) && file.size > MaxImageBytes ==> r == Rejected(TooLargeMessage)
    ensures r == Readable <==> IsImageType(file.mimeType) && file.size <= MaxImageBytes
  {
    if !IsImageType(file.mimeType) then Rejected(WrongTypeMessage)
    else if file.size > MaxImageBytes then Rejected(TooLargeMessage)
    else Readable
  }

  /** The size of a file that is not an image never matters, and exactly 5 MiB is allowed. */
  lemma TypeCheckedBeforeSize(file: File, otherSize: nat)
    ensures !IsImageType(file.mimeType) ==> CheckFile(file) == CheckFile(file.(size := otherSize))
    ensures IsImageType(file.mimeType) && file.size == 5 * 1024 * 1024 ==> CheckFile(file) == Readable
  {
  }

  /** A stored image the handlers could have produced: a file that passed the checks, or a
      trimmed, non-empty URL accepted by `isValidUrl`. */
  ghost predicate Acceptable(img: UploadedImage, isValidUrl: string -> bool) {
    match img
    case FileImage(_, file) => CheckFile(file) == Readable
    case UrlImage(url) => IsAcceptableUrl(url, isValidUrl)
  }

  ghost predicate IsAcceptableUrl(url: string, isValidUrl: string -> bool) {
    url != "" && Trim(url) == url && isValidUrl(url)
  }

  /** The body `searchSimilarProducts` posts: a file image sends the `File` itself (not
      its data URL) as form field `image`; a URL image sends its URL as JSON. */
  function RequestFor(img: UploadedImage): (r: SearchRequest)
    ensures r.MultipartImage? <==> img.FileImage?
    ensures r.MultipartImage? ==> r.image == img.file
    ensures r.JsonUrl? ==> r.url == img.data
  {
    match img
    case FileImage(_, file) => MultipartImage(file)
    case UrlImage(url) => JsonUrl(url)
  }

  /** How `searchSimilarProducts` reads the reply. A non-OK reply shows its `error` text or
      "Something went wrong"; a failure before any reply shows the exception's message or the
      generic retry message; an OK reply yields its products (a missing list behaves as an
      empty one). The message shown is never empty. */
  function SearchOutcome(reply: Reply): (r: Outcome)
    ensures r.Found? <==> reply.Replied? && reply.ok
    ensures r.Found? ==> r.products == reply.products.GetOr([])
    ensures r.Problem? ==> r.message != ""
    ensures reply.Replied? && !reply.ok ==>
      r.message == (if reply.error.Some? && reply.error.value != "" then reply.error.value else ServerFallbackMessage)
    ensures reply.NoReply? && reply.message != "" ==> r.message == reply.message
    ensures reply.NoReply? && reply.message == "" ==> r.message == ClientFallbackMessage
  {
    match reply
    case NoReply(m) => Problem(OrElse(m, ClientFallbackMessage))
    case Replied(ok, error, products) =>
      if !ok then
        // the reply's error text, or the server fallback; the thrown error's message, or the client fallback
        Problem(OrElse(OrElse(error.GetOr(""), ServerFallbackMessage), ClientFallbackMessage))
      else Found(products.GetOr([]))
  }

  predicate IsHigh(p: Product) {
    p.similarityScore > HighSimilarity
  }

  /** The products whose similarity score is strictly above 0.8, in their original order. */
  function FilterHigh(ps: seq<Product>): (r: seq<Product>)
    ensures |r| <= |ps|
    ensures forall i :: 0 <= i < |r| ==> IsHigh(r[i])
    ensures forall p :: p in r ==> p in ps
  {
    if ps == [] then []
    else (if IsHigh(ps[0]) then [ps[0]] else []) + FilterHigh(ps[1..])
  }

  /** Filtering a concatenation filters each part and keeps them in order: the filter
      preserves the original order of the products it keeps. */
  lemma {:induction false} FilterHighConcat(a: seq<Product>, b: seq<Product>)
    ensures FilterHigh(a + b) == FilterHigh(a) + FilterHigh(b)
  {
    if a == [] {
      assert a + b == b;
    } else {
      assert (a + b)[0] == a[0];
      assert (a + b)[1..] == a[1..] + b;
      FilterHighConcat(a[1..], b);
      var head := if IsHigh(a[0]) then [a[0]] else [];
      assert FilterHigh(a + b) == head + (FilterHigh(a[1..]) + FilterHigh(b));
    }
  }

  /** The filter keeps every product scoring strictly above 0.8, as often as it occurs,
      and nothing else. */
  lemma {:induction false} FilterHighCounts(ps: seq<Product>, p: Product)
    ensures multiset(FilterHigh(ps))[p] == if IsHigh(p) then multiset(ps)[p] else 0
  {
    if ps != [] {
      FilterHighCounts(ps[1..], p);
      assert ps == [ps[0]] + ps[1..];
    }
  }

  /** A product is in the filtered list exactly when it is in the list and scores above 0.8. */
  lemma FilterHighMembers(ps: seq<Product>, p: Product)
    ensures p in FilterHigh(ps) <==> p in ps && IsHigh(p)
  {
    FilterHighCounts(ps, p);
  }

  /** Filtering an already filtered list changes nothing. */
  lemma {:induction false} FilterHighIdempotent(ps: seq<Product>)
    ensures FilterHigh(FilterHigh(ps)) == FilterHigh(ps)
  {
    if ps != [] {
      FilterHighIdempotent(ps[1..]);
      FilterHighConcat(if IsHigh(ps[0]) then [ps[0]] else [], FilterHigh(ps[1..]));
    }
  }

  /** Scores 0.9, 0.5 and 0.8 filter to the 0.9 product alone: 0.8 itself is not kept. */
  lemma FilterHighExample(a: Product, b: Product, c: Product)
    requires a.similarityScore == 90 && b.similarityScore == 50 && c.similarityScore == 80
    ensures FilterHigh([a, b, c]) == [a]
  {
    assert [c][1..] == [];
    assert FilterHigh([c]) == [];
    assert [b, c][1..] == [c];
    assert FilterHigh([b, c]) == [];
    assert [a, b, c][1..] == [b, c];
  }

  /** The products `filterResults` renders: the high-similarity ones when the box is
      checked, all of them otherwise. */
  function View(ps: seq<Product>, highOnly: bool): seq<Product> {
    if highOnly then FilterHigh(ps) else ps
  }

  /** The page state: the module globals `currentUploadedImage` and `allProducts`, the
      product cards in the grid, the visibility toggled by the show/hide helpers, the
      search button's `disabled` flag and the number in the results count. Two pieces of
      browser state complete it: the files whose `FileReader` has not yet fired `onload`,
      and the URL the preview image is loading with the handlers of `handleUrlInput`. */
  class Controller {
    var currentUploadedImage: Option<UploadedImage>
    var allProducts: seq<Product>
    var grid: seq<Product>
    var loadingShown: bool
    var errorShown: bool
    var errorText: string
    var resultsShown: bool
    var noResultsShown: bool
    var searchDisabled: bool
    /** The number written into the results count; None until it is first written. */
    var resultsCount: Option<nat>
    var pendingReads: multiset<File>
    var urlPreviewSrc: Option<string>
    /** `isValidUrl`: whether the WHATWG URL parser accepts the string. */
    const isValidUrl: string -> bool

    /** The search button is disabled exactly when no image is stored, and every stored,
        pending or loading image passed the handlers' checks. */
    ghost predicate Valid()
      reads this`currentUploadedImage, this`searchDisabled, this`pendingReads, this`urlPreviewSrc
    {
      && searchDisabled == currentUploadedImage.None?
      && (currentUploadedImage.Some? ==> Acceptable(currentUploadedImage.value, isValidUrl))
      && (forall f :: f in pendingReads ==> CheckFile(f) == Readable)
      && (urlPreviewSrc.Some? ==> IsAcceptableUrl(urlPreviewSrc.value, isValidUrl))
    }

    /** The page after loading and `initializeApp`: nothing stored, every section hidden,
        the search button disabled. */
    constructor (isValidUrl: string -> bool)
      ensures Valid() && this.isValidUrl == isValidUrl
      ensures currentUploadedImage == None && allProducts == [] && grid == []
      ensures !loadingShown && !errorShown && !resultsShown && !noResultsShown
      ensures searchDisabled && resultsCount == None
      ensures pendingReads == multiset{} && urlPreviewSrc == None
    {
      this.isValidUrl := isValidUrl;
      currentUploadedImage := None;
      allProducts := [];
      grid := [];
      loadingShown, errorShown, resultsShown, noResultsShown := false, false, false, false;
      errorText := "";
      resultsCount := None;
      pendingReads := multiset{};
      urlPreviewSrc := None;
      searchDisabled := true;
    }

    method UpdateSearchButton()
      modifies this`searchDisabled
      ensures searchDisabled == currentUploadedImage.None?
    {
      searchDisabled := currentUploadedImage.None?;
    }

    method ShowLoading()
      modifies this`loadingShown
      ensures loadingShown
    {
      loadingShown := true;
    }

    method HideLoading()
      modifies this`loadingShown
      ensures !loadingShown
    {
      loadingShown := false;
    }

    method ShowError(message: string)
      modifies this`errorShown, this`errorText
      ensures errorShown && errorText == message
    {
      errorText := message;
      errorShown := true;
    }

    method HideError()
      modifies this`errorShown
      ensures !errorShown
    {
      errorShown := false;
    }

    /** Shows the results section and writes the number of stored products into the count. */
    method ShowResults()
      modifies this`resultsShown, this`resultsCount
      ensures resultsShown && resultsCount == Some(|allProducts|)
    {
      resultsShown := true;
      resultsCount := Some(|allProducts|);
    }

    method HideResults()
      modifies this`resultsShown
      ensures !resultsShown
    {
      resultsShown := false;
    }

    /** Empties the grid and shows the "no results" message. */
    method ShowNoResults()
      modifies this`grid, this`noResultsShown
      ensures grid == [] && noResultsShown
    {
      grid := [];
      noResultsShown := true;
    }

    /** `renderProducts`: empties the grid, then appends one card per product, in order. */
    method RenderProducts(products: seq<Product>)
      modifies this`grid
      ensures grid == products
    {
      grid := [];
      for i := 0 to |products|
        invariant grid == products[..i]
      {
        grid := grid + [products[i]];
      }
    }

    /** `handleImageFile`: a file failing a check shows that check's message; a file passing
        both starts a read. The stored image is not touched either way. */
    method HandleImageFile(file: File)
      requires Valid()
      modifies this`errorShown, this`errorText, this`pendingReads
      ensures Valid()
      ensures CheckFile(file).Rejected? ==>
        errorShown && errorText == CheckFile(file).message && pendingReads == old(pendingReads)
      ensures CheckFile(file) == Readable ==>
        && pendingReads == old(pendingReads) + multiset{file}
        && errorShown == old(errorShown) && errorText == old(errorText)
    {
      if !IsImageType(file.mimeType) {
        ShowError(WrongTypeMessage);
        return;
      }
      if file.size > MaxImageBytes {
        ShowError(TooLargeMessage);
        return;
      }
      pendingReads := pendingReads + multiset{file};
    }

    /** The `onload` of the reader started for `file`: stores the file image with its data
        URL and enables the search button. A file with no read in progress changes nothing. */
    method OnFileRead(file: File, dataUrl: string)
      requires Valid()
      modifies this`currentUploadedImage, this`searchDisabled, this`pendingReads
      ensures Valid()
      ensures file in old(pendingReads) ==>
        && pendingReads == old(pendingReads) - multiset{file}
        && currentUploadedImage == Some(FileImage(dataUrl, file)) && !searchDisabled
      ensures file !in old(pendingReads) ==>
        && pendingReads == old(pendingReads)
        && currentUploadedImage == old(currentUploadedImage) && searchDisabled == old(searchDisabled)
    {
      if file in pendingReads {
        pendingReads := pendingReads - multiset{file};
        currentUploadedImage := Some(FileImage(dataUrl, file));
        UpdateSearchButton();
      }
    }

    /** `handleUrlInput` on the input's raw value: blank input clears the stored image; an
        invalid URL changes nothing; a valid one starts loading the preview. */
    method HandleUrlInput(value: string)
      requires Valid()
      modifies this`currentUploadedImage, this`searchDisabled, this`urlPreviewSrc
      ensures Valid()
      ensures Trim(value) == "" ==>
        currentUploadedImage == None && searchDisabled && urlPreviewSrc == old(urlPreviewSrc)
      ensures Trim(value) != "" && !isValidUrl(Trim(value)) ==>
        && currentUploadedImage == old(currentUploadedImage) && searchDisabled == old(searchDisabled)
        && urlPreviewSrc == old(urlPreviewSrc)
      ensures Trim(value) != "" && isValidUrl(Trim(value)) ==>
        && currentUploadedImage == old(currentUploadedImage) && searchDisabled == old(searchDisabled)
        && urlPreviewSrc == Some(Trim(value))
    {
      var url := Trim(value);
      if url == "" {
        ClearUrlInput();
        return;
      }
      if !isValidUrl(url) {
        return;
      }
      TrimIdempotent(value);
      urlPreviewSrc := Some(url);
    }

    /** The preview image's `onload`: stores the URL image and enables the search button. */
    method OnUrlPreviewLoad()
      requires Valid()
      modifies this`currentUploadedImage, this`searchDisabled, this`urlPreviewSrc
      ensures Valid()
      ensures old(urlPreviewSrc).Some? ==>
        && currentUploadedImage == Some(UrlImage(old(urlPreviewSrc).value)) && !searchDisabled
        && urlPreviewSrc == None
      ensures old(urlPreviewSrc).None? ==>
        && currentUploadedImage == old(currentUploadedImage) && searchDisabled == old(searchDisabled)
        && urlPreviewSrc == None
    {
      if urlPreviewSrc.Some? {
        currentUploadedImage := Some(UrlImage(urlPreviewSrc.value));
        urlPreviewSrc := None;
        UpdateSearchButton();
      }
    }

    /** The preview image's `onerror`: shows the load error and clears the stored image. */
    method OnUrlPreviewError()
      requires Valid()
      modifies this`currentUploadedImage, this`searchDisabled, this`urlPreviewSrc
      modifies this`errorShown, this`errorText
      ensures Valid()
      ensures old(urlPreviewSrc).Some? ==>
        && errorShown && errorText == UrlLoadFailedMessage
        && currentUploadedImage == None && searchDisabled && urlPreviewSrc == None
      ensures old(urlPreviewSrc).None? ==>
        && currentUploadedImage == old(currentUploadedImage) && searchDisabled == old(searchDisabled)
        && errorShown == old(errorShown) && errorText == old(errorText) && urlPreviewSrc == None
    {
      if urlPreviewSrc.Some? {
        urlPreviewSrc := None;
        ShowError(UrlLoadFailedMessage);
        ClearUrlInput();
      }
    }

    /** `clearFileUpload`: forgets the stored image and disables the search button. */
    method ClearFileUpload()
      requires Valid()
      modifies this`currentUploadedImage, this`searchDisabled
      ensures Valid()
      ensures currentUploadedImage == None && searchDisabled
    {
      currentUploadedImage := None;
      UpdateSearchButton();
    }

    /** `clearUrlInput`: forgets the stored image and disables the search button; a preview
        still loading keeps its handlers. */
    method ClearUrlInput()
      requires Valid()
      modifies this`currentUploadedImage, this`searchDisabled
      ensures Valid()
      ensures currentUploadedImage == None && searchDisabled
    {
      currentUploadedImage := None;
      UpdateSearchButton();
    }

    /** `displayResults`: always replaces `allProducts`. An empty list empties the grid and
        shows "no results" without showing the results section; otherwise the grid holds the
        products and the count is their number. */
    method DisplayResults(products: seq<Product>)
      modifies this`allProducts, this`grid, this`noResultsShown, this`resultsShown, this`resultsCount
      ensures allProducts == products
      ensures products == [] ==>
        && grid == [] && noResultsShown
        && resultsShown == old(resultsShown) && resultsCount == old(resultsCount)
      ensures products != [] ==>
        && grid == products && resultsShown && resultsCount == Some(|products|)
        && noResultsShown == old(noResultsShown)
    {
      allProducts := products;
      if |products| == 0 {
        ShowNoResults();
        return;
      }
      RenderProducts(products);
      ShowResults();
    }

    /** The `try` block of `searchSimilarProducts` once the reply is in: show the products
        or the error message. */
    method ShowOutcome(outcome: Outcome)
      modifies this`errorShown, this`errorText, this`resultsShown
      modifies this`noResultsShown, this`grid, this`allProducts, this`resultsCount
      ensures outcome.Problem? ==>
        && errorShown && errorText == outcome.message && resultsShown == old(resultsShown)
        && noResultsShown == old(noResultsShown) && grid == old(grid)
        && allProducts == old(allProducts) && resultsCount == old(resultsCount)
      ensures outcome.Found? ==>
        && errorShown == old(errorShown) && errorText == old(errorText) && allProducts == outcome.products
        && (outcome.products == [] ==>
              grid == [] && noResultsShown && resultsShown == old(resultsShown) && resultsCount == old(resultsCount))
        && (outcome.products != [] ==>
              grid == outcome.products && resultsShown && resultsCount == Some(|outcome.products|)
              && noResultsShown == old(noResultsShown))
    {
      match outcome
      case Found(ps) => DisplayResults(ps);
      case Problem(m) => ShowError(m);
    }

    /** `searchSimilarProducts`, with the network's answer given as `reply`. Without a stored
        image it shows "Please select an image first" and sends nothing. Otherwise it sends
        the request for the stored image, hides the error and results, shows the outcome, and
        the loading indicator is hidden again on every path. */
    method SearchSimilarProducts(reply: Reply) returns (sent: Option<SearchRequest>)
      requires Valid()
      modifies this`loadingShown, this`errorShown, this`errorText, this`resultsShown
      modifies this`noResultsShown, this`grid, this`allProducts, this`resultsCount
      ensures Valid()
      ensures old(currentUploadedImage).None? ==>
        && sent == None && errorShown && errorText == NoImageMessage
        && loadingShown == old(loadingShown) && resultsShown == old(resultsShown)
        && noResultsShown == old(noResultsShown) && grid == old(grid)
        && allProducts == old(allProducts) && resultsCount == old(resultsCount)
      ensures old(currentUploadedImage).Some? ==>
        sent == Some(RequestFor(old(currentUploadedImage).value)) && !loadingShown
      ensures old(currentUploadedImage).Some? && SearchOutcome(reply).Problem? ==>
        && errorShown && errorText == SearchOutcome(reply).message && !resultsShown
        && noResultsShown == old(noResultsShown) && grid == old(grid)
        && allProducts == old(allProducts) && resultsCount == old(resultsCount)
      ensures old(currentUploadedImage).Some? && SearchOutcome(reply).Found? ==>
        && !errorShown && errorText == old(errorText) && allProducts == SearchOutcome(reply).products
        && (allProducts == [] ==> grid == [] && noResultsShown && !resultsShown && resultsCount == old(resultsCount))
        && (allProducts != [] ==> grid == allProducts && resultsShown && resultsCount == Some(|allProducts|)
                                  && noResultsShown == old(noResultsShown))
    {
      if currentUploadedImage.None? {
        ShowError(NoImageMessage);
        return None;
      }
      sent := Some(RequestFor(currentUploadedImage.value));
      Submit(reply);
    }

    /** `searchSimilarProducts` past its guard: loading shown and error and results hidden
        while the request is out, the outcome shown, and loading hidden in `finally`. */
    method Submit(reply: Reply)
      modifies this`loadingShown, this`errorShown, this`errorText, this`resultsShown
      modifies this`noResultsShown, this`grid, this`allProducts, this`resultsCount
      ensures !loadingShown
      ensures SearchOutcome(reply).Problem? ==>
        && errorShown && errorText == SearchOutcome(reply).message && !resultsShown
        && noResultsShown == old(noResultsShown) && grid == old(grid)
        && allProducts == old(allProducts) && resultsCount == old(resultsCount)
      ensures SearchOutcome(reply).Found? ==>
        && !errorShown && errorText == old(errorText) && allProducts == SearchOutcome(reply).products
        && (allProducts == [] ==> grid == [] && noResultsShown && !resultsShown && resultsCount == old(resultsCount))
        && (allProducts != [] ==> grid == allProducts && resultsShown && resultsCount == Some(|allProducts|)
                                  && noResultsShown == old(noResultsShown))
    {
      ShowLoading();
      HideError();
      HideResults();
      ShowOutcome(SearchOutcome(reply));
      HideLoading();
    }

    /** `filterResults` with the checkbox's state: nothing happens while no products are
        stored; otherwise the grid shows the current view (see View), or "no results" when
        the view is empty, and the count is the view's length. `allProducts` is never changed. */
    method FilterResults(highOnly: bool)
      modifies this`grid, this`noResultsShown, this`resultsCount
      ensures allProducts == [] ==>
        grid == old(grid) && noResultsShown == old(noResultsShown) && resultsCount == old(resultsCount)
      ensures allProducts != [] && View(allProducts, highOnly) == [] ==>
        grid == [] && noResultsShown && resultsCount == old(resultsCount)
      ensures allProducts != [] && View(allProducts, highOnly) != [] ==>
        && grid == View(allProducts, highOnly) && resultsCount == Some(|View(allProducts, highOnly)|)
        && noResultsShown == old(noResultsShown)
    {
      if |allProducts| == 0 {
        return;
      }
      var filtered: seq<Product>;
      if highOnly {
        filtered := FilterHigh(allProducts);
      } else {
        filtered := allProducts;
      }
      if |filtered| == 0 {
        ShowNoResults();
      } else {
        RenderProducts(filtered);
        resultsCount := Some(|filtered|);
      }
    }
  }
}
