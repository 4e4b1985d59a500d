// The proxy server: the two POST handlers that relay an uploaded photo to the
// image host and a prompt plus that photo to the inference API. Every network
// exchange is an input (an `Http` outcome), and each handler returns the HTTP
// response it sends together with the upstream calls it made, in order.
// JSON.parse, base64 encoding and decoding a body as text are library calls,
// passed in as the functions of a `Lib` value.

module Server {
  import opened Js

  /** The outcome of one `fetch`: a rejected promise, or a response. */
  datatype Http =
    | NetworkError(message: string)
    | Reply(ok: bool, statusText: string, contentType: Option<string>, body: Bytes)

  /** Library calls the handlers make: JSON.parse (which may throw), Buffer's base64, response.text(). */
  datatype Lib = Lib(parse: string -> Completion, base64: Bytes -> string, text: Bytes -> string)

  /** What `res.status(status).json(body)` sends. */
  datatype Response = Response(status: int, body: JsValue)

  /** A request the server sends upstream. */
  datatype UpstreamCall =
    | ImgbbUpload(image: string)
    | FetchImage(url: string)
    | Inference(inputs: JsValue, image: string, steps: int)

  const NoImageData := "No image data provided."
  const ImageFetchRefused := "Failed to fetch image from ImgBB: "
  const UploadInternalError := "An internal server error occurred during image upload."
  const UploadRefused := "Failed to upload image to ImgBB"
  const UnknownImgbbError := "Unknown ImgBB error"
  const MissingFields := "Missing prompt or image URL"
  const ImageFetchFailed := "Failed to process uploaded image (for Hugging Face)"
  const GenerateFailed := "Failed to generate aura"
  const UnknownInferenceError := "Unknown Hugging Face API error"
  const InferenceSteps := 50

  function ErrorBody(error: string): JsValue {
    Obj(map["error" := Str(error)])
  }

  function ErrorDetailsBody(error: string, details: JsValue): JsValue {
    Obj(map["error" := Str(error), "details" := details])
  }

  /** A 500 response whose body names `error`, whatever its details are. */
  predicate FailsWith(resp: Response, error: string) {
    resp.status == 500 && resp.body.Obj? && resp.body.fields.Keys == {"error", "details"} &&
    resp.body.fields["error"] == Str(error)
  }

  // ---- String.prototype.split with a one-character separator ----

  /** `s.split(sep)`: the pieces between the separators, in order. */
  function Split(s: string, sep: char): (parts: seq<string>)
    ensures |parts| >= 1
    decreases |s|
  {
    if s == [] then [""]
    else
      var rest := Split(s[1..], sep);
      if s[0] == sep then [""] + rest else [[s[0]] + rest[0]] + rest[1..]
  }

  /** Joining Split's pieces with the separator gives back the string. */
  lemma {:induction false} SplitJoin(s: string, sep: char)
    ensures Join(Split(s, sep), [sep]) == s
    decreases |s|
  {
    if s != [] {
      var rest := Split(s[1..], sep);
      var parts := Split(s, sep);
      SplitJoin(s[1..], sep);
      assert s == [s[0]] + s[1..];
      if s[0] == sep {
        assert parts == [""] + rest;
        assert Join(parts, [sep]) == "" + [sep] + Join(rest, [sep]);
      } else if |rest| == 1 {
        assert parts == [[s[0]] + rest[0]];
      } else {
        assert parts == [[s[0]] + rest[0]] + rest[1..];
        assert parts[1..] == rest[1..];
        calc {
          Join(parts, [sep]);
          ([s[0]] + rest[0]) + [sep] + Join(rest[1..], [sep]);
          [s[0]] + (rest[0] + [sep] + Join(rest[1..], [sep]));
          [s[0]] + Join(rest, [sep]);
        }
      }
    }
  }

  /** No piece of a split holds the separator. */
  lemma {:induction false} SplitPiecesLackSeparator(s: string, sep: char)
    ensures forall k :: 0 <= k < |Split(s, sep)| ==> sep !in Split(s, sep)[k]
    decreases |s|
  {
    if s != [] {
      var rest := Split(s[1..], sep);
      var parts := Split(s, sep);
      SplitPiecesLackSeparator(s[1..], sep);
      if s[0] != sep {
        forall k | 0 <= k < |parts| ensures sep !in parts[k] {
          if k == 0 {
            assert parts[0] == [s[0]] + rest[0];
          } else {
            assert parts[k] == rest[k];
          }
        }
      }
    }
  }

  lemma {:induction false} SplitWithoutSeparator(a: string, sep: char)
    requires sep !in a
    ensures Split(a, sep) == [a]
    decreases |a|
  {
    if a != [] {
      SplitWithoutSeparator(a[1..], sep);
      assert a == [a[0]] + a[1..];
    }
  }

  /** The first piece ends at the first separator. */
  lemma {:induction false} SplitAtFirst(a: string, b: string, sep: char)
    requires sep !in a
    ensures Split(a + [sep] + b, sep) == [a] + Split(b, sep)
    decreases |a|
  {
    if a != [] {
      assert (a + [sep] + b)[1..] == a[1..] + [sep] + b;
      SplitAtFirst(a[1..], b, sep);
      assert a == [a[0]] + a[1..];
    }
  }

  lemma SplitFirstPiece(b: string, j: int, sep: char)
    requires 0 <= j <= |b| && sep !in b[..j]
    requires j == |b| || b[j] == sep
    ensures Split(b, sep)[0] == b[..j]
  {
    if j == |b| {
      assert b[..j] == b;
      SplitWithoutSeparator(b, sep);
    } else {
      assert b == b[..j] + [sep] + b[j + 1..];
      SplitAtFirst(b[..j], b[j + 1..], sep);
    }
  }

  // ---- server.js:48, the data-URI prefix strip ----

  /** `imageData.split(',')[1] || imageData` */
  function StripPrefix(imageData: string): (r: string)
    ensures r == imageData || (r != "" && ',' !in r)
  {
    SplitPiecesLackSeparator(imageData, ',');
    var parts := Split(imageData, ',');
    if |parts| > 1 && parts[1] != "" then parts[1] else imageData
  }

  /** Without a comma the input is returned unchanged. */
  lemma StripPrefixWithoutComma(s: string)
    requires ',' !in s
    ensures StripPrefix(s) == s
  {
    SplitWithoutSeparator(s, ',');
  }

  /**
   * With a first comma at i and the next comma (or the end) at j, the result is
   * the text strictly between them, or the whole input when that text is empty.
   */
  lemma StripPrefixBetweenCommas(s: string, i: int, j: int)
    requires 0 <= i < j <= |s| && s[i] == ','
    requires ',' !in s[..i] && ',' !in s[i + 1..j]
    requires j == |s| || s[j] == ','
    ensures StripPrefix(s) == if j > i + 1 then s[i + 1..j] else s
  {
    var b := s[i + 1..];
    assert s == s[..i] + [','] + b;
    SplitAtFirst(s[..i], b, ',');
    assert b[..j - i - 1] == s[i + 1..j];
    SplitFirstPiece(b, j - i - 1, ',');
  }

  // ---- server.js:152-153, the result data URI ----

  function DataUri(mime: string, payload: string): string {
    "data:" + mime + ";base64," + payload
  }

  /** `headers.get('Content-Type') || 'image/png'`: an absent or empty header gives PNG. */
  function MimeType(contentType: Option<string>): (mime: string)
    ensures mime != ""
    ensures contentType.Some? && contentType.value != "" ==> mime == contentType.value
    ensures !(contentType.Some? && contentType.value != "") ==> mime == "image/png"
  {
    if contentType.Some? && contentType.value != "" then contentType.value else "image/png"
  }

  function ResultDataUri(contentType: Option<string>, encoded: string): string {
    DataUri(MimeType(contentType), encoded)
  }

  /**
   * The upload handler's prefix strip undoes the data-URI wrapping: for a
   * comma-free type and a non-empty comma-free payload (base64 text has no
   * comma) it recovers the payload, as for the data URIs the page uploads.
   */
  lemma StripDataUri(mime: string, payload: string)
    requires ',' !in mime && ',' !in payload && payload != ""
    ensures StripPrefix(DataUri(mime, payload)) == payload
  {
    var s := DataUri(mime, payload);
    var i := |"data:" + mime + ";base64"|;
    assert s == ("data:" + mime + ";base64") + [','] + payload;
    assert s[..i] == "data:" + mime + ";base64";
    assert s[i + 1..] == payload;
    StripPrefixBetweenCommas(s, i, |s|);
  }

  /** The generated image comes back as a data URI that declares its type and carries the encoding. */
  lemma ResultDataUriRecoversEncoding(contentType: Option<string>, encoded: string)
    requires ',' !in MimeType(contentType) && ',' !in encoded && encoded != ""
    ensures StripPrefix(ResultDataUri(contentType, encoded)) == encoded
    ensures contentType.None? || contentType == Some("") ==>
              ResultDataUri(contentType, encoded) == "data:image/png;base64," + encoded
  {
    StripDataUri(MimeType(contentType), encoded);
  }

  // ---- Error details (server.js:59-63 and server.js:139-145) ----

  /**
   * The upload handler's details for a refused upload: `error.message` of the
   * body parsed as JSON when that is truthy, otherwise the raw text.
   */
  function UploadErrorDetails(errorText: string, parsed: Completion): (d: JsValue)
    ensures parsed.Normal? && Path(parsed.value, ["error", "message"]).Normal? &&
            Truthy(Path(parsed.value, ["error", "message"]).value)
            ==> d == Path(parsed.value, ["error", "message"]).value
    ensures !(parsed.Normal? && Path(parsed.value, ["error", "message"]).Normal? &&
              Truthy(Path(parsed.value, ["error", "message"]).value))
            ==> d == Str(errorText)
  {
    match parsed
    case Throw(_) => Str(errorText)  // not JSON: the raw text stays
    case Normal(errorJson) =>
      match Prop(errorJson, "error")
      case Throw(_) => Str(errorText)  // `null.error` throws inside the try: the raw text stays
      case Normal(e) =>
        if Truthy(e) && Truthy(Prop(e, "message").value) then Prop(e, "message").value else Str(errorText)
  }

  /**
   * The generation handler's details for a refused inference call: the parsed
   * `error` field when truthy, else the raw text; when the body is not JSON
   * (or is JSON null) they stay the fixed unknown-error text.
   */
  function InferenceErrorDetails(errorText: string, parsed: Completion): (d: JsValue)
    ensures parsed.Throw? ==> d == Str(UnknownInferenceError)
    ensures parsed.Normal? && Nullish(parsed.value) ==> d == Str(UnknownInferenceError)
    ensures parsed.Normal? && Path(parsed.value, ["error"]).Normal? ==>
              var e := Path(parsed.value, ["error"]).value;
              (Truthy(e) ==> d == e) && (!Truthy(e) ==> d == Str(errorText))
  {
    var errorDetails := Str(UnknownInferenceError);
    match parsed
    case Throw(_) => errorDetails
    case Normal(errorJson) =>
      match Prop(errorJson, "error")
      case Throw(_) => errorDetails
      case Normal(e) => Or(e, Str(errorText))
  }

  /** The two handlers treat a body that is not JSON differently. */
  lemma NonJsonErrorBodies(text: string, syntaxError: string)
    ensures UploadErrorDetails(text, Throw(syntaxError)) == Str(text)
    ensures InferenceErrorDetails(text, Throw(syntaxError)) == Str(UnknownInferenceError)
  {
  }

  /**
   * For a JSON body `{"error": "m"}` (the inference API's shape) the inference
   * handler reports m, while the upload handler, which looks for
   * `error.message`, reports the whole raw text.
   */
  lemma StringErrorField(text: string, m: string)
    requires m != ""
    ensures var parsed := Normal(Obj(map["error" := Str(m)]));
            InferenceErrorDetails(text, parsed) == Str(m) &&
            UploadErrorDetails(text, parsed) == Str(text)
  {
    var parsed := Normal(Obj(map["error" := Str(m)]));
    assert Path(parsed.value, ["error", "message"]) == Normal(Undefined);
  }

  // ---- POST /api/upload-image-to-imgbb (server.js:39-88) ----

  /** The image host answered with a 2xx status and a body that parses as JSON. */
  predicate ImgbbAnswered(imgbb: Http, lib: Lib) {
    imgbb.Reply? && imgbb.ok && lib.parse(lib.text(imgbb.body)).Normal?
  }

  function ImgbbJson(imgbb: Http, lib: Lib): JsValue
    requires ImgbbAnswered(imgbb, lib)
  {
    lib.parse(lib.text(imgbb.body)).value
  }

  /** ... with a truthy `success` flag and a readable `data.url`. */
  predicate ImgbbAccepted(imgbb: Http, lib: Lib) {
    ImgbbAnswered(imgbb, lib) &&
    Path(ImgbbJson(imgbb, lib), ["success"]).Normal? &&
    Truthy(Path(ImgbbJson(imgbb, lib), ["success"]).value) &&
    Path(ImgbbJson(imgbb, lib), ["data", "url"]).Normal?
  }

  /** ... with a falsy `success` flag and a readable `error.message`. */
  predicate ImgbbRefused(imgbb: Http, lib: Lib) {
    ImgbbAnswered(imgbb, lib) &&
    Path(ImgbbJson(imgbb, lib), ["success"]).Normal? &&
    !Truthy(Path(ImgbbJson(imgbb, lib), ["success"]).value) &&
    Path(ImgbbJson(imgbb, lib), ["error", "message"]).Normal?
  }

  /** `res.json({ imageUrl: url })`: JSON leaves out a property whose value is undefined. */
  function ImageUrlBody(url: JsValue): JsValue {
    Obj(if url.Undefined? then map[] else map["imageUrl" := url])
  }

  method HandleUpload(body: map<string, JsValue>, imgbb: Http, lib: Lib)
    returns (resp: Response, calls: seq<UpstreamCall>)
    ensures var imageData := Field(body, "imageData");
            calls == if Truthy(imageData) && imageData.Str? then [ImgbbUpload(StripPrefix(imageData.s))] else []
    ensures resp.status == 200 || resp.status == 400 || resp.status == 500
    ensures resp.status == 400 <==> !Truthy(Field(body, "imageData"))
    ensures resp.status == 400 ==> resp.body == ErrorBody(NoImageData)
    ensures resp.status == 200 <==> calls != [] && ImgbbAccepted(imgbb, lib)
    ensures resp.status == 200 ==>
              resp.body == ImageUrlBody(Path(ImgbbJson(imgbb, lib), ["data", "url"]).value)
    ensures Truthy(Field(body, "imageData")) && !Field(body, "imageData").Str? ==>
              resp == Response(500, ErrorDetailsBody(UploadInternalError, Str("imageData.split is not a function")))
    ensures calls != [] && imgbb.NetworkError? ==>
              resp == Response(500, ErrorDetailsBody(UploadInternalError, Str(imgbb.message)))
    ensures calls != [] && imgbb.Reply? && !imgbb.ok ==>
              var errorText := lib.text(imgbb.body);
              var details := UploadErrorDetails(errorText, lib.parse(errorText));
              resp == Response(500, ErrorDetailsBody(UploadInternalError, Str("ImgBB upload failed: " + ToStr(details))))
    ensures calls != [] && ImgbbRefused(imgbb, lib) ==>
              var message := Path(ImgbbJson(imgbb, lib), ["error", "message"]).value;
              resp == Response(500, ErrorDetailsBody(UploadRefused, Or(message, Str(UnknownImgbbError))))
    ensures calls != [] && imgbb.Reply? && imgbb.ok && lib.parse(lib.text(imgbb.body)).Throw? ==>
              resp == Response(500, ErrorDetailsBody(UploadInternalError,
                                                     Str(lib.parse(lib.text(imgbb.body)).message)))
    ensures calls != [] && ImgbbAnswered(imgbb, lib) && Path(ImgbbJson(imgbb, lib), ["success"]).Throw? ==>
              resp == Response(500, ErrorDetailsBody(UploadInternalError,
                                                     Str(Path(ImgbbJson(imgbb, lib), ["success"]).message)))
    ensures calls != [] && ImgbbAnswered(imgbb, lib) && Path(ImgbbJson(imgbb, lib), ["success"]).Normal? &&
            Truthy(Path(ImgbbJson(imgbb, lib), ["success"]).value) &&
            Path(ImgbbJson(imgbb, lib), ["data", "url"]).Throw? ==>
              resp == Response(500, ErrorDetailsBody(UploadInternalError,
                                                     Str(Path(ImgbbJson(imgbb, lib), ["data", "url"]).message)))
    ensures calls != [] && ImgbbAnswered(imgbb, lib) && Path(ImgbbJson(imgbb, lib), ["success"]).Normal? &&
            !Truthy(Path(ImgbbJson(imgbb, lib), ["success"]).value) &&
            Path(ImgbbJson(imgbb, lib), ["error", "message"]).Throw? ==>
              resp == Response(500, ErrorDetailsBody(UploadInternalError,
                                                     Str(Path(ImgbbJson(imgbb, lib), ["error", "message"]).message)))
    ensures resp.status == 500 ==>
              FailsWith(resp, if calls != [] && ImgbbRefused(imgbb, lib) then UploadRefused else UploadInternalError)
  {
    calls := [];
    var imageData := Field(body, "imageData");
    if !Truthy(imageData) {
      resp := Response(400, ErrorBody(NoImageData));
      return;
    }
    if !imageData.Str? {
      // only a string has split(): the TypeError is caught by the handler's catch
      resp := Response(500, ErrorDetailsBody(UploadInternalError, Str("imageData.split is not a function")));
      return;
    }
    var base64Image := StripPrefix(imageData.s);
    calls := [ImgbbUpload(base64Image)];
    match imgbb
    case NetworkError(message) =>
      resp := Response(500, ErrorDetailsBody(UploadInternalError, Str(message)));
    case Reply(ok, _, _, responseBody) =>
      if !ok {
        var errorText := lib.text(responseBody);
        var errorDetails := UploadErrorDetails(errorText, lib.parse(errorText));
        resp := Response(500, ErrorDetailsBody(UploadInternalError, Str("ImgBB upload failed: " + ToStr(errorDetails))));
        return;
      }
      var parsed := lib.parse(lib.text(responseBody));
      if parsed.Throw? {
        resp := Response(500, ErrorDetailsBody(UploadInternalError, Str(parsed.message)));
        return;
      }
      var imgbbData := parsed.value;
      var success := Prop(imgbbData, "success");
      if success.Throw? {
        resp := Response(500, ErrorDetailsBody(UploadInternalError, Str(success.message)));
        return;
      }
      if Truthy(success.value) {
        var data := Prop(imgbbData, "data");
        var url := if data.Throw? then data else Prop(data.value, "url");
        if url.Throw? {
          resp := Response(500, ErrorDetailsBody(UploadInternalError, Str(url.message)));
        } else {
          resp := Response(200, ImageUrlBody(url.value));
        }
      } else {
        var error := Prop(imgbbData, "error");
        var message := if error.Throw? then error else Prop(error.value, "message");
        if message.Throw? {
          resp := Response(500, ErrorDetailsBody(UploadInternalError, Str(message.message)));
        } else {
          resp := Response(500, ErrorDetailsBody(UploadRefused, Or(message.value, Str(UnknownImgbbError))));
        }
      }
  }

  // ---- POST /api/generate-aura (server.js:91-164) ----

  /** Why fetching the uploaded image failed, if it did. */
  /** The message the image fetch fails with, if it does. */
  function ImageFetchError(imageFetch: Http): (r: Option<string>)
    ensures r.None? <==> imageFetch.Reply? && imageFetch.ok
    ensures imageFetch.NetworkError? ==> r == Some(imageFetch.message)
    ensures imageFetch.Reply? && !imageFetch.ok ==>
              r.Some? && |r.value| == |ImageFetchRefused| + |imageFetch.statusText| &&
              r.value[..|ImageFetchRefused|] == ImageFetchRefused &&
              r.value[|ImageFetchRefused|..] == imageFetch.statusText
  {
    match imageFetch
    case NetworkError(message) => Some(message)
    case Reply(ok, statusText, _, _) =>
      if ok then None else Some(ImageFetchRefused + statusText)
  }

  function OutputBody(resultUrl: string): JsValue {
    Obj(map["output" := Arr([Str(resultUrl)])])
  }

  method HandleGenerate(body: map<string, JsValue>, imageFetch: Http, inference: Http, lib: Lib)
    returns (resp: Response, calls: seq<UpstreamCall>)
    ensures var prompt, imageUrl := Field(body, "prompt"), Field(body, "imageUrl");
            (resp.status == 400 <==> !Truthy(prompt) || !Truthy(imageUrl)) &&
            (resp.status == 400 ==> resp.body == ErrorBody(MissingFields) && calls == []) &&
            (resp.status != 400 ==> |calls| >= 1 && calls[0] == FetchImage(ToStr(imageUrl)))
    ensures resp.status == 200 || resp.status == 400 || resp.status == 500
    ensures resp.status != 400 && ImageFetchError(imageFetch).Some? ==>
              calls == [FetchImage(ToStr(Field(body, "imageUrl")))] &&
              resp == Response(500, ErrorDetailsBody(ImageFetchFailed, Str(ImageFetchError(imageFetch).value)))
    ensures resp.status != 400 && ImageFetchError(imageFetch).None? ==>
              var image := DataUri("image/jpeg", lib.base64(imageFetch.body));
              calls == [FetchImage(ToStr(Field(body, "imageUrl"))), Inference(Field(body, "prompt"), image, InferenceSteps)]
    ensures |calls| == 2 && inference.NetworkError? ==>
              resp == Response(500, ErrorDetailsBody(GenerateFailed, Str(inference.message)))
    ensures |calls| == 2 && inference.Reply? && !inference.ok ==>
              var errorText := lib.text(inference.body);
              var details := InferenceErrorDetails(errorText, lib.parse(errorText));
              resp == Response(500, ErrorDetailsBody(GenerateFailed, Str("Hugging Face API failed: " + ToStr(details))))
    ensures resp.status == 200 <==> |calls| == 2 && inference.Reply? && inference.ok
    ensures resp.status == 200 ==>
              resp.body == OutputBody(ResultDataUri(inference.contentType, lib.base64(inference.body)))
  {
    calls := [];
    var prompt := Field(body, "prompt");
    var imageUrl := Field(body, "imageUrl");
    if !Truthy(prompt) || !Truthy(imageUrl) {
      resp := Response(400, ErrorBody(MissingFields));
      return;
    }

    calls := [FetchImage(ToStr(imageUrl))];
    var base64Image: string;
    match imageFetch
    case NetworkError(message) =>
      resp := Response(500, ErrorDetailsBody(ImageFetchFailed, Str(message)));
      return;
    case Reply(ok, statusText, _, imageBuffer) =>
      if !ok {
        var message := ImageFetchRefused + statusText;
        resp := Response(500, ErrorDetailsBody(ImageFetchFailed, Str(message)));
        return;
      }
      base64Image := lib.base64(imageBuffer);

    calls := calls + [Inference(prompt, DataUri("image/jpeg", base64Image), InferenceSteps)];
    match inference
    case NetworkError(message) =>
      resp := Response(500, ErrorDetailsBody(GenerateFailed, Str(message)));
    case Reply(ok, _, contentType, responseBody) =>
      if !ok {
        var errorText := lib.text(responseBody);
        var errorDetails := InferenceErrorDetails(errorText, lib.parse(errorText));
        resp := Response(500, ErrorDetailsBody(GenerateFailed, Str("Hugging Face API failed: " + ToStr(errorDetails))));
      } else {
        var base64GeneratedImage := lib.base64(responseBody);
        var resultUrl := ResultDataUri(contentType, base64GeneratedImage);
        resp := Response(200, OutputBody(resultUrl));
      }
  }
}
