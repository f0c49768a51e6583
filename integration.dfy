/** How the front end's search request meets the back end's `/api/search` dispatch. */
module Integration {
  import opened Wrappers
  import opened JsonValues
  import Frontend
  import Backend

  /** The request Flask sees for a body the front end posts. A multipart form carries
      the file as part `image`, named after the file, with its MIME type; `json` stands
      for whatever `request.json` would give for it, which the file branch never reads.
      A JSON post carries the object `{url: ...}` and no file parts. */
  function ServerRequest(r: Frontend.SearchRequest, json: Backend.JsonBody): Backend.Request {
    match r
    case MultipartImage(file) =>
      Backend.Request(map["image" := Backend.FilePart(file.name, Some(file.mimeType))], json)
    case JsonUrl(url) =>
      Backend.Request(map[], Backend.Parsed(JObj(map["url" := JStr(url)])))
  }

  /** Every image the controller can hold (see Frontend.Controller.Valid) produces a
      request the back end analyses, provided a posted file has a name: the front end
      never sends a URL the back end would refuse as blank. */
  lemma StoredImagesAreAnalysed(img: Frontend.UploadedImage, isValidUrl: string -> bool, json: Backend.JsonBody)
    requires Frontend.Acceptable(img, isValidUrl)
    requires img.FileImage? ==> img.file.name != ""
    ensures var route := Backend.Dispatch(ServerRequest(Frontend.RequestFor(img), json));
      route == (if img.FileImage? then Backend.AnalyseFile else Backend.AnalyseUrl)
  {
  }

  /** A posted file without a name is the one front-end request the back end refuses. */
  lemma UnnamedFileIsRefused(img: Frontend.UploadedImage, json: Backend.JsonBody)
    requires img.FileImage? && img.file.name == ""
    ensures Backend.Dispatch(ServerRequest(Frontend.RequestFor(img), json)) == Backend.Reject(Backend.NoFileSelected)
  {
  }
}
