# Visual product matcher: a verified model of its client state and request handling

The system lets a user pick an image (a local file or a URL) in the browser, posts it to
a small Flask service that pretends to find similar products, and shows the returned
products with an optional "high similarity only" filter. This project models, in Dafny:

- **the browser controller** (`frontend/script.js`), as the class `Frontend.Controller` in
  `frontend.dfy`. Its fields are the two module globals `currentUploadedImage` and
  `allProducts`, plus the visible page state the show/hide helpers toggle: the loading,
  error (with its text), results and "no results" sections, the search button's disabled
  flag, the number in the results count, and the cards in the grid. It has two more fields
  for browser state: the files whose `FileReader` has not yet fired `onload`, and the URL
  the preview image is loading. Each event handler is a method. Each one's `ensures` gives
  the whole new state in terms of the old state and of pure functions: `CheckFile`,
  `RequestFor`, `SearchOutcome`, `FilterHigh` and `Text.Trim`. The invariant `Valid()` is
  kept by every handler: the search button is disabled exactly when no image is stored,
  and every stored, pending or loading image passed the handlers' checks;
- **the Flask service** (`backend/app.py`), in `backend.dfy` and `analysis.dfy`:
  - the decision of `/api/search` and of `/api/upload-test` is a pure function of the
    request (`Backend.Dispatch`, `Backend.UploadTest`), with Python's truthiness, `in` and
    subscript rules for whatever JSON arrives;
  - `simulate_image_analysis` is imperative, as in the source: copy the catalogue into a
    fresh array, Fisher–Yates shuffle it in place, attach a score to each of the first six,
    then sort in place by score, highest first;
- **the meeting point** of the two (`integration.dfy`): every image the controller can hold
  yields a request that the service analyses, provided an uploaded file has a name.

Similarity scores are integer hundredths (70..95 from the service), so the client's strict
`> 0.8` test is exact (`> 80`).

Other things the model makes explicit:
- The "no results" message is shown by `showNoResults` and no code path ever hides it
  again. After an empty search, a later successful search shows the results section and
  the message together; the contracts of `DisplayResults` and `FilterResults` state this.
- `clearUrlInput` does not detach the preview image's handlers. A preview that finishes
  loading after the input was cleared still stores its URL (`OnUrlPreviewLoad`).
- The file type check runs before the size check. An oversized non-image therefore gets
  the type message, not the size message.
- A URL that fails `isValidUrl` is ignored silently: no message is shown and nothing is
  stored.

Inputs the model takes from outside:
- the random draws of `random.shuffle` and `random.uniform`;
- the network's reply to the search;
- the outcomes of `FileReader` and of image loading, as events;
- the WHATWG URL parser behind `isValidUrl`, as the function-valued constant
  `Controller.isValidUrl`.

## Model

| member | source | states |
|---|---|---|
| `Frontend.CheckFile` | frontend/script.js:69-80 | a non-image MIME type is refused with the type message whatever the size; an image over 5 MiB is refused with the size message; a file is readable exactly when it is an image of at most 5 MiB |
| `Frontend.TypeCheckedBeforeSize` | frontend/script.js:71-80 | the size of a non-image never changes the verdict; an image of exactly 5 MiB passes |
| `Frontend.RequestFor` | frontend/script.js:176-196 | a file image is posted as multipart field `image` carrying the File itself; a URL image is posted as JSON `{url: data}` |
| `Frontend.SearchOutcome` | frontend/script.js:198-212 | only an OK reply yields products (a missing list counts as empty); a non-OK reply surfaces `data.error` or "Something went wrong"; a failure before a reply surfaces its message or the retry message; the message shown is never empty |
| `Frontend.FilterHigh` | frontend/script.js:279 | the filtered list is no longer than the input, holds only inputs, and every kept score exceeds 0.8 |
| `Frontend.FilterHighConcat` | frontend/script.js:279 | filtering distributes over concatenation, so the original order is kept |
| `Frontend.FilterHighCounts` | frontend/script.js:279 | each product scoring above 0.8 is kept as often as it occurs, and no other product is kept |
| `Frontend.FilterHighMembers` | frontend/script.js:279 | a product is kept exactly when it is in the list and scores strictly above 0.8 |
| `Frontend.FilterHighIdempotent` | frontend/script.js:279 | filtering a filtered list changes nothing |
| `Frontend.FilterHighExample` | frontend/script.js:278-279 | scores 0.9, 0.5, 0.8 filter to the 0.9 product alone (strict comparison) |
| `Frontend.Controller.constructor` | frontend/script.js:1-39 | nothing stored, no products, all sections hidden, search button disabled |
| `Frontend.Controller.UpdateSearchButton` | frontend/script.js:157-159 | the button is disabled exactly when no image is stored |
| `Frontend.Controller.ShowLoading` | frontend/script.js:294-296 | the loading section becomes visible; nothing else changes |
| `Frontend.Controller.HideLoading` | frontend/script.js:298-300 | the loading section becomes hidden; nothing else changes |
| `Frontend.Controller.ShowError` | frontend/script.js:302-305 | the error text is the message and the error section is visible |
| `Frontend.Controller.HideError` | frontend/script.js:307-309 | the error section becomes hidden, its text is kept |
| `Frontend.Controller.ShowResults` | frontend/script.js:311-314 | the results section is visible and the count is `allProducts.length` |
| `Frontend.Controller.HideResults` | frontend/script.js:316-318 | the results section becomes hidden |
| `Frontend.Controller.ShowNoResults` | frontend/script.js:320-323 | the grid is emptied and the "no results" message is visible |
| `Frontend.Controller.RenderProducts` | frontend/script.js:246-253 | after the loop the grid holds one card per product, in order |
| `Frontend.Controller.HandleImageFile` | frontend/script.js:69-100 | a rejected file shows its check's message and starts no read; an accepted file starts a read and shows nothing; the stored image is untouched |
| `Frontend.Controller.OnFileRead` | frontend/script.js:83-98 | a finished read stores a `file` image with its data URL and enables the button; an event for a file not being read changes nothing |
| `Frontend.Controller.HandleUrlInput` | frontend/script.js:102-125 | a blank trimmed value clears the stored image; an invalid URL changes nothing; a valid URL starts the preview load, the stored image unchanged |
| `Frontend.Controller.OnUrlPreviewLoad` | frontend/script.js:118-125 | a loaded preview stores a `url` image with the trimmed URL and enables the button |
| `Frontend.Controller.OnUrlPreviewError` | frontend/script.js:127-130 | a failed preview shows the load error, clears the stored image, disables the button |
| `Frontend.Controller.ClearFileUpload` | frontend/script.js:142-148 | no image is stored and the button is disabled |
| `Frontend.Controller.ClearUrlInput` | frontend/script.js:150-155 | no image is stored and the button is disabled; a pending preview load is kept |
| `Frontend.Controller.DisplayResults` | frontend/script.js:216-232 | `allProducts` is always replaced; an empty list empties the grid and shows "no results" without touching the results section; otherwise the grid holds the products, the section is shown and the count is their number |
| `Frontend.Controller.ShowOutcome` | frontend/script.js:198-209 | products go to `displayResults`, a problem's message to the error section |
| `Frontend.Controller.Submit` | frontend/script.js:168-212 | the error and results are hidden before the outcome is shown, and loading is hidden on every exit path |
| `Frontend.Controller.SearchSimilarProducts` | frontend/script.js:162-213 | with no image: "Please select an image first" and no request; otherwise the request for the stored image is sent and the outcome is shown with loading hidden; the invariant is kept |
| `Frontend.Controller.FilterResults` | frontend/script.js:272-291 | with no products nothing changes; otherwise the grid shows the high-similarity view when checked and all products when not, "no results" for an empty view, and the count is the view's length; `allProducts` is never modified |
| `Text.Trim` | frontend/script.js:103 | the result is the input with white space dropped from both ends only; it neither starts nor ends with white space; it is empty exactly when the input is all white space |
| `Text.TrimIdempotent` | frontend/script.js:103 | trimming a trimmed value changes nothing |
| `Backend.Dispatch` | backend/app.py:22-53 | an `image` part wins even when a URL is supplied; an empty file name is "No file selected"; without a file, only a JSON object with a truthy `url` is analysed, a present but falsy `url` is "No URL provided", no usable JSON is "Please provide either an image file or URL"; every 400 carries one of these three messages; a 500 happens exactly when, without a file, the JSON body cannot be read or the `in` test or `url` subscript raises a TypeError, and its message is that exception's text |
| `Backend.SearchBody` | backend/app.py:46-50 | the success body has `success: true` and a `total` equal to the length of its `products` list |
| `Backend.SearchSimilarProducts` | backend/app.py:22-53 | refusals answer 400 and exceptions 500 with the message under `error`; an analysis answers 200 with a body whose products are an analysis result of the catalogue |
| `Backend.GetAllProducts` | backend/app.py:55-61 | the listing returns every catalogue entry and a `total` equal to the catalogue length |
| `Backend.UploadTest` | backend/app.py:82-97 | 200 exactly when an `image` part with a non-empty name is present, echoing its file name and content type; otherwise "No file uploaded" or "No file selected" with 400 |
| `Backend.UploadTestAgreesWithSearch` | backend/app.py:85-90 | with an `image` part, the upload test succeeds exactly when the search analyses the file, and both refuse an empty name with the same message |
| `Analysis.Shuffled` | backend/app.py:67 | the shuffled list has the original length |
| `Analysis.ShuffledIsPermutation` | backend/app.py:66-67 | the shuffle only reorders the copy |
| `Analysis.ShuffledPrefix` | backend/app.py:66-71 | the first entries of the shuffled copy are distinct catalogue entries |
| `Analysis.Shuffle` | backend/app.py:67 | the in-place Fisher–Yates loop leaves the array equal to the shuffle the draws describe |
| `Analysis.SortByScore` | backend/app.py:79 | the in-place sort leaves the matches ordered by score, highest first, and is a permutation |
| `Analysis.WithScore` | backend/app.py:74-75 | a returned product is its catalogue entry with only `similarity_score` added or overwritten |
| `Analysis.ScoredProvenance` | backend/app.py:70-76 | in any order, the scored matches carry the scored entries and only drawn scores |
| `Analysis.EntriesOfPermutation` | backend/app.py:79 | reordering the matches reorders their catalogue entries the same way |
| `Analysis.SimulateImageAnalysis` | backend/app.py:63-80 | exactly min(6, catalogue length) matches; sorted non-increasingly by score; a permutation of the shuffled prefix paired with the drawn scores; distinct catalogue entries; scores within 70..95 hundredths; the catalogue is an immutable value and the shuffle acts on a fresh copy |
| `Integration.StoredImagesAreAnalysed` | backend/app.py:25-41 | any image the controller can store leads the service to analyse a file or a URL, provided an uploaded file has a name |
| `Integration.UnnamedFileIsRefused` | backend/app.py:25-28 | a file posted without a name is refused with "No file selected" |

## Left out

- DOM rendering and HTML: `createProductCard`, `displayOriginalImage`, the upload and URL previews, and the drag-and-drop CSS classes. This is presentation; the grid is modelled as the list of products whose cards it holds.
- `handleDragOver`, `handleDragLeave`, `handleFileDrop`, `handleFileSelect` and `initializeApp`. They are event wiring that passes `files[0]` to `handleImageFile` (modelled).
- `testApi`: diagnostic logging of `/api/products` at page load.
- `console.error('Search error:', …)` in `searchSimilarProducts`: diagnostic logging of a failed search.
- The input elements' own text (`urlInput.value`, `imageUpload.value`) is not state of the model. The URL handler takes the raw input text as its argument.
- The page's initial HTML is not part of this model. The constructor assumes every section starts hidden and the count unwritten.
- `Frontend.Controller.SearchSimilarProducts`: the `await`s are not modelled as suspension points. The search runs atomically with the reply as input, so events between sending and receiving are not interleaved. This includes a stored image cleared mid-request, which would make `displayOriginalImage` throw.
- `Frontend.SearchOutcome`: the reply is assumed to decode to an object whose `error` is a string or absent. A missing `products` list is stored as the empty list, because every later reader treats an undefined list like an empty one (`filterResults` throws before changing anything). A present `products` that is not a list is not modelled: `renderProducts` would throw inside the `try` and the TypeError's message would be shown as the error.
- `Frontend.Controller.FilterResults`: the count text `${n} products` is modelled by the number `n`; string formatting is left out.
- The WHATWG URL parser and the browser's image decoding are foreign code. `isValidUrl` is an uninterpreted function; image load success and failure are events.
- Flask routing, CORS, `app.run`, the `/` route, loading `products.json` at import, `backend/utils.py` (file I/O) and the unused PIL/numpy/requests imports.
- `random.shuffle` and `random.uniform` are replaced by their draws, given as parameters.
- Analysis.SortByScore: does not state stability. Python's sort keeps ties in shuffled order, and this insertion sort does too, but the contract only says "sorted and a permutation".
- Analysis.SimulateImageAnalysis: the order among equal scores is likewise left unstated.
- Floating point: a score is held as hundredths. Its JSON form is the exact rational `n/100`, not the nearest binary double that `round(x, 2)` produces.
- Python TypeError messages follow CPython 3.11 and later. Flask's handling of a non-JSON body is left to the caller's choice of `Backend.JsonBody`: None on older Flask versions, or an exception on Flask 2.1 and later.
