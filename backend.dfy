/** The Flask back end (`backend/app.py`): how `/api/search` and `/api/upload-test`
    decide their answer from a request, and the catalogue listing of `/api/products`. */
module Backend {
  import opened Wrappers
  import opened JsonValues
  import opened Analysis

  const NoFileSelected: string := "No file selected"
  const NoUrlProvided: string := "No URL provided"
  const NeitherProvided: string := "Please provide either an image file or URL"
  const NoFileUploaded: string := "No file uploaded"
  const UploadReceived: string := "File received successfully"

  /** The `image` entry of `request.files`: the file's name and declared content type. */
  datatype FilePart = FilePart(filename: string, contentType: Option<string>)

  /** What evaluating `request.json` gives: None (no JSON body on Flask versions that
      return None for a non-JSON request), an exception (malformed JSON, or a non-JSON
      request on Flask versions that raise 415 for it), or the decoded value. */
  datatype JsonBody = NoJson | Unreadable(message: string) | Parsed(value: Json)

  /** The parts of a request the handlers look at: the file parts by field name, and the JSON body. */
  datatype Request = Request(files: map<string, FilePart>, json: JsonBody)

  /** An HTTP status and its JSON body. */
  datatype Response = Response(status: int, body: Json)

  /** The outcome of a Python expression that may raise; `message` is `str(e)`. */
  datatype Eval<T> = Value(v: T) | Raised(message: string)

  /** Python's `needle in hay` on strings: `needle` occurs in `hay`. */
  predicate IsSubstring(needle: string, hay: string) {
    needle <= hay || (hay != [] && IsSubstring(needle, hay[1..]))
  }

  /** Python's `key in v` for a decoded JSON value: dict membership, list membership,
      substring test, or a TypeError for values that are not containers. */
  function ContainsKey(v: Json, key: string): Eval<bool> {
    match v
    case JObj(fields) => Value(key in fields)
    case JArr(items) => Value(JStr(key) in items)
    case JStr(s) => Value(IsSubstring(key, s))
    case JNull => Raised("argument of type 'NoneType' is not iterable")
    case JBool(_) => Raised("argument of type 'bool' is not iterable")
    case JInt(_) => Raised("argument of type 'int' is not iterable")
    case JFloat(_) => Raised("argument of type 'float' is not iterable")
  }

  /** Python's `v[key]` with a string key for a decoded JSON value. */
  function Subscript(v: Json, key: string): Eval<Json> {
    match v
    case JObj(fields) => if key in fields then Value(fields[key]) else Raised("'" + key + "'")
    case JArr(_) => Raised("list indices must be integers or slices, not str")
    case JStr(_) => Raised("string indices must be integers, not 'str'")
    case JNull => Raised("'NoneType' object is not subscriptable")
    case JBool(_) => Raised("'bool' object is not subscriptable")
    case JInt(_) => Raised("'int' object is not subscriptable")
    case JFloat(_) => Raised("'float' object is not subscriptable")
  }

  /** Which way `search_similar_products` goes: analyse an uploaded file, analyse a URL,
      answer 400 with a message, or answer 500 with the text of an exception. */
  datatype Route = AnalyseFile | AnalyseUrl | Reject(message: string) | Fault(message: string)

  predicate HasImagePart(req: Request) {
    "image" in req.files
  }

  /** The request carries a JSON object whose `url` field is present. */
  predicate HasUrlField(req: Request) {
    req.json.Parsed? && req.json.value.JObj? && "url" in req.json.value.fields
  }

  /** The decisions of `search_similar_products`. An `image` part always wins, whatever
      JSON the request also carries; only then is the JSON body consulted, and only a JSON
      object with a truthy `url` leads to an analysis. An exception can arise only on the
      JSON path: reading the body, or the `in` test or subscript on a decoded value that
      does not support them; its text becomes the 500 message. */
  function Dispatch(req: Request): (r: Route)
    ensures r.AnalyseFile? <==> HasImagePart(req) && req.files["image"].filename != ""
    ensures r == Reject(NoFileSelected) <==> HasImagePart(req) && req.files["image"].filename == ""
    ensures r.AnalyseUrl? <==>
      !HasImagePart(req) && HasUrlField(req) && Truthy(req.json.value.fields["url"])
    ensures r == Reject(NoUrlProvided) <==>
      !HasImagePart(req) && HasUrlField(req) && !Truthy(req.json.value.fields["url"])
    ensures r == Reject(NeitherProvided) <==>
      !HasImagePart(req) && (req.json.NoJson? ||
        (req.json.Parsed? && (!Truthy(req.json.value) || ContainsKey(req.json.value, "url") == Value(false))))
    ensures r.Fault? <==> (
      && !HasImagePart(req)
      && (|| req.json.Unreadable?
          || (req.json.Parsed? && Truthy(req.json.value) && ContainsKey(req.json.value, "url").Raised?)
          || (&& req.json.Parsed? && Truthy(req.json.value)
              && ContainsKey(req.json.value, "url") == Value(true)
              && Subscript(req.json.value, "url").Raised?)))
    ensures !HasImagePart(req) && req.json.Unreadable? ==> r == Fault(req.json.message)
    ensures (!HasImagePart(req) && req.json.Parsed? && Truthy(req.json.value)
             && ContainsKey(req.json.value, "url").Raised?)
      ==> r == Fault(ContainsKey(req.json.value, "url").message)
    ensures (!HasImagePart(req) && req.json.Parsed? && Truthy(req.json.value)
             && ContainsKey(req.json.value, "url") == Value(true)
             && Subscript(req.json.value, "url").Raised?)
      ==> r == Fault(Subscript(req.json.value, "url").message)
    ensures r.Reject? ==> r.message in {NoFileSelected, NoUrlProvided, NeitherProvided}
  {
    if "image" in req.files then
      if req.files["image"].filename == "" then Reject(NoFileSelected) else AnalyseFile
    else
      match req.json
      case NoJson => Reject(NeitherProvided)
      case Unreadable(m) => Fault(m)
      case Parsed(v) =>
        if !Truthy(v) then Reject(NeitherProvided)
        else
          match ContainsKey(v, "url")
          case Raised(m) => Fault(m)
          case Value(present) =>
            if !present then Reject(NeitherProvided)
            else
              match Subscript(v, "url")
              case Raised(m) => Fault(m)
              case Value(url) => if !Truthy(url) then Reject(NoUrlProvided) else AnalyseUrl
  }

  /** A JSON body whose `total` field is the length of its `products` list. */
  ghost predicate ReportsTotal(body: Json) {
    && body.JObj?
    && "products" in body.fields && body.fields["products"].JArr?
    && "total" in body.fields
    && body.fields["total"] == JInt(|body.fields["products"].items|)
  }

  /** The success body of `/api/search`. */
  function SearchBody(results: seq<Match>): (body: Json)
    ensures ReportsTotal(body)
    ensures "success" in body.fields && body.fields["success"] == JBool(true)
    ensures body.fields["products"].items == seq(|results|, i requires 0 <= i < |results| => WithScore(results[i]))
  {
    JObj(map[
      "success" := JBool(true),
      "products" := JArr(seq(|results|, i requires 0 <= i < |results| => WithScore(results[i]))),
      "total" := JInt(|results|)])
  }

  /** What `simulate_image_analysis` promises of its result, for the given draws. */
  ghost predicate IsAnalysis(catalogue: seq<Product>, draws: seq<nat>, scores: seq<int>, results: seq<Match>)
    requires IsShuffleDraws(|catalogue|, draws) && IsScoreDraws(|catalogue|, scores)
  {
    && |results| == Min(ResultCount, |catalogue|)
    && SortedByScore(results)
    && multiset(results) == multiset(Scored(Shuffled(catalogue, draws)[..|scores|], scores))
    && multiset(Entries(results)) <= multiset(catalogue)
  }

  /** `POST /api/search`: 400 or 500 with the routed message, or 200 with an analysis of
      the catalogue whose `total` is the number of products returned. */
  method SearchSimilarProducts(catalogue: seq<Product>, req: Request, draws: seq<nat>, scores: seq<int>)
    returns (resp: Response)
    requires IsShuffleDraws(|catalogue|, draws) && IsScoreDraws(|catalogue|, scores)
    ensures Dispatch(req).Reject? ==> resp == Response(400, ErrorBody(Dispatch(req).message))
    ensures Dispatch(req).Fault? ==> resp == Response(500, ErrorBody(Dispatch(req).message))
    ensures Dispatch(req).AnalyseFile? || Dispatch(req).AnalyseUrl? ==>
      exists results :: IsAnalysis(catalogue, draws, scores, results) && resp == Response(200, SearchBody(results))
  {
    match Dispatch(req)
    case Reject(m) => resp := Response(400, ErrorBody(m));
    case Fault(m) => resp := Response(500, ErrorBody(m));
    case _ =>
      var results := SimulateImageAnalysis(catalogue, draws, scores);
      resp := Response(200, SearchBody(results));
      assert IsAnalysis(catalogue, draws, scores, results);
  }

  /** `GET /api/products`: the whole catalogue and its length. */
  function GetAllProducts(catalogue: seq<Product>): (r: Response)
    ensures r.status == 200 && ReportsTotal(r.body)
    ensures r.body.fields["total"] == JInt(|catalogue|)
    ensures forall i :: 0 <= i < |catalogue| ==> r.body.fields["products"].items[i] == JObj(catalogue[i])
  {
    Response(200, JObj(map[
      "products" := JArr(seq(|catalogue|, i requires 0 <= i < |catalogue| => JObj(catalogue[i]))),
      "total" := JInt(|catalogue|)]))
  }

  function ContentTypeJson(contentType: Option<string>): Json {
    match contentType
    case Some(t) => JStr(t)
    case None => JNull
  }

  /** `POST /api/upload-test`: 400 without an `image` part or with an empty file name;
      otherwise 200 echoing the file's name and content type. */
  function UploadTest(req: Request): (r: Response)
    ensures r.status == 200 <==> HasImagePart(req) && req.files["image"].filename != ""
    ensures !HasImagePart(req) ==> r == Response(400, ErrorBody(NoFileUploaded))
    ensures HasImagePart(req) && req.files["image"].filename == "" ==>
      r == Response(400, ErrorBody(NoFileSelected))
    ensures r.status == 200 ==>
      && r.body.JObj? && r.body.fields.Keys == {"success", "message", "filename", "content_type"}
      && r.body.fields["success"] == JBool(true)
      && r.body.fields["filename"] == JStr(req.files["image"].filename)
      && r.body.fields["content_type"] == ContentTypeJson(req.files["image"].contentType)
  {
    if "image" !in req.files then Response(400, ErrorBody(NoFileUploaded))
    else
      var file := req.files["image"];
      if file.filename == "" then Response(400, ErrorBody(NoFileSelected))
      else Response(200, JObj(map[
        "success" := JBool(true),
        "message" := JStr(UploadReceived),
        "filename" := JStr(file.filename),
        "content_type" := ContentTypeJson(file.contentType)]))
  }

  /** For a request with an `image` part, the upload test accepts exactly when the search
      analyses the file, and both refuse an empty file name with the same message. */
  lemma UploadTestAgreesWithSearch(req: Request)
    requires HasImagePart(req)
    ensures UploadTest(req).status == 200 <==> Dispatch(req) == AnalyseFile
    ensures UploadTest(req).status != 200 ==>
      UploadTest(req) == Response(400, ErrorBody(Dispatch(req).message))
  {
  }
}
