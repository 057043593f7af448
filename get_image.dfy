/**
 * The request handler `get_image`: answer a CORS preflight, resolve the
 * parameters from the JSON body or the query string, reject too many images
 * with 406, otherwise generate the images in batches, caption them all in one
 * call and pair images with captions positionally.
 *
 * Everything the handler cannot see is an oracle in `Services`: the image
 * provider, the captioning model (given the image bytes in order and the
 * description prompt), the JSON parser, base64 encoding and Python's `int`.
 */
module ImageFunction {
  import opened Wrappers
  import opened ImageBatches
  import opened Captions

  const MAX_IMAGE_COUNT: int := 5
  const DEFAULT_IMAGE_PROMPT: string := "a picture of a cute cat jumping"
  const DEFAULT_DESCRIPTION_PROMPT: string := "decribe the image"
  const DEFAULT_IMAGE_COUNT: int := 1
  const TOO_MANY_IMAGES: string := "Invalid image_count. Maximum image count is 5."

  type Params = map<string, string>

  /** The parts of a Flask request the handler reads: method, JSON body (if it parsed) and query args. */
  datatype HttpRequest = HttpRequest(httpMethod: string, json: Option<Params>, args: Params)

  datatype ResponseItem = ResponseItem(image: string, caption: string, title: string)

  datatype Body = Text(text: string) | Items(items: seq<ResponseItem>)

  datatype Response = Response(status: nat, body: Body, headers: seq<(string, string)>)

  /** Exceptions the handler does not catch: `int` on a bad image_count, or a caption failure. */
  datatype HandlerError = InvalidImageCount | CaptionFailure(error: CaptionError)

  /** The handler answers, lets an exception escape, or never returns (the batch loop does not finish). */
  datatype Outcome = Responded(response: Response) | Raised(error: HandlerError) | Diverges

  /**
   * The collaborators: the image provider, the captioning model (None when
   * its answer has no text), the JSON parser, base64 encoding and `int`.
   */
  datatype Services = Services(
    generate: ImageProvider,
    caption: (seq<seq<bv8>>, string) -> Option<string>,
    parseJson: JsonParser,
    encode: seq<bv8> -> string,
    toInt: string -> Option<int>)

  function PreflightHeaders(): seq<(string, string)> {
    [("Access-Control-Allow-Origin", "*"),
     ("Access-Control-Allow-Methods", "GET, POST"),
     ("Access-Control-Allow-Headers", "Content-Type"),
     ("Access-Control-Max-Age", "3600")]
  }

  /** `request_json or request_args`: the body when it is a non-empty object. */
  function ParamSource(req: HttpRequest): Params {
    if req.json.Some? && req.json.value != map[] then req.json.value else req.args
  }

  /**
   * `(request_json or request_args).get(key, default)`: the body's value when
   * the body is a non-empty object; a key that body lacks takes the default
   * even when the query args have it; without such a body, the query args.
   */
  function RequestParam(req: HttpRequest, key: string, default: string): (v: string)
    ensures req.json.Some? && key in req.json.value ==> v == req.json.value[key]
    ensures req.json.Some? && req.json.value != map[] && key !in req.json.value ==> v == default
    ensures (req.json.None? || req.json.value == map[]) ==>
      v == if key in req.args then req.args[key] else default
  {
    var source := ParamSource(req);
    if key in source then source[key] else default
  }

  /**
   * `int(....get('image_count', 1))`: None when `int` raises, which only
   * happens on a value that is present; a count absent from the chosen
   * source is 1, even when the query args hold one.
   */
  function ImageCount(req: HttpRequest, toInt: string -> Option<int>): (c: Option<int>)
    ensures c.None? ==> "image_count" in ParamSource(req) && toInt(ParamSource(req)["image_count"]).None?
    ensures req.json.Some? && "image_count" in req.json.value ==> c == toInt(req.json.value["image_count"])
    ensures req.json.Some? && req.json.value != map[] && "image_count" !in req.json.value ==>
      c == Some(DEFAULT_IMAGE_COUNT)
    ensures (req.json.None? || req.json.value == map[]) && "image_count" in req.args ==>
      c == toInt(req.args["image_count"])
    ensures (req.json.None? || req.json.value == map[]) && "image_count" !in req.args ==>
      c == Some(DEFAULT_IMAGE_COUNT)
  {
    var source := ParamSource(req);
    if "image_count" in source then toInt(source["image_count"]) else Some(DEFAULT_IMAGE_COUNT)
  }

  function EncodedImages(encode: seq<bv8> -> string, images: seq<GeneratedImage>): seq<string> {
    seq(|images|, i requires 0 <= i < |images| => encode(images[i].imageBytes))
  }

  function ImageParts(images: seq<GeneratedImage>): seq<seq<bv8>> {
    seq(|images|, i requires 0 <= i < |images| => images[i].imageBytes)
  }

  /** Python's `zip` into response items: as long as the shorter list, pairing by position. */
  function Zip(imageStrings: seq<string>, captions: seq<CaptionEntry>): (items: seq<ResponseItem>)
    ensures |items| == Min(|imageStrings|, |captions|)
    ensures forall i :: 0 <= i < |items| ==>
      items[i] == ResponseItem(imageStrings[i], captions[i].description, captions[i].title)
    decreases |imageStrings|
  {
    if imageStrings == [] || captions == [] then []
    else [ResponseItem(imageStrings[0], captions[0].description, captions[0].title)]
         + Zip(imageStrings[1..], captions[1..])
  }

  /**
   * What `get_image` does with a request: the only statuses it answers with
   * are 204, 406 and 200, and a preflight always gets an answer.
   */
  ghost function Handler(svc: Services, req: HttpRequest): (out: Outcome)
    ensures out.Responded? ==> out.response.status in {200, 204, 406}
    ensures req.httpMethod == "OPTIONS" ==> out.Responded? && out.response.status == 204
  {
    if req.httpMethod == "OPTIONS" then Responded(Response(204, Text(""), PreflightHeaders()))
    else
      var imagePrompt := RequestParam(req, "image_prompt", DEFAULT_IMAGE_PROMPT);
      var inputPrompt := RequestParam(req, "desc_prompt", DEFAULT_DESCRIPTION_PROMPT);
      match ImageCount(req, svc.toInt)
      case None => Raised(InvalidImageCount)
      case Some(imageCount) =>
        if imageCount > MAX_IMAGE_COUNT then Responded(Response(406, Text(TOO_MANY_IMAGES), []))
        else
          match BatchOutcome(svc.generate, imagePrompt, imageCount)
          case None => Diverges
          case Some(run) =>
            match ParseCaptions(svc.parseJson, svc.caption(ImageParts(run.images), inputPrompt))
            case Failure(e) => Raised(CaptionFailure(e))
            case Success(captions) =>
              Responded(Response(200, Items(Zip(EncodedImages(svc.encode, run.images), captions)),
                                 [("Access-Control-Allow-Origin", "*")]))
  }

  /** A preflight gets 204, an empty body and the four CORS headers, whatever else the request holds. */
  lemma PreflightIgnoresRequest(svc: Services, req: HttpRequest)
    requires req.httpMethod == "OPTIONS"
    ensures Handler(svc, req) == Responded(Response(204, Text(""), PreflightHeaders()))
  {
  }

  /** An image_count that `int` rejects escapes as an exception before anything is generated. */
  lemma BadImageCountRaises(svc: Services, req: HttpRequest)
    requires req.httpMethod != "OPTIONS"
    requires ImageCount(req, svc.toInt).None?
    ensures Handler(svc, req) == Raised(InvalidImageCount)
  {
  }

  /**
   * More than MAX_IMAGE_COUNT images is refused with 406 and the fixed message
   * before any provider is used: the answer is the same whatever the providers,
   * the parser and the encoder do.
   */
  lemma TooManyImagesRejected(svc: Services, other: Services, req: HttpRequest)
    requires other.toInt == svc.toInt
    requires req.httpMethod != "OPTIONS"
    requires var c := ImageCount(req, svc.toInt); c.Some? && c.value > MAX_IMAGE_COUNT
    ensures Handler(svc, req) == Responded(Response(406, Text(TOO_MANY_IMAGES), []))
    ensures Handler(other, req) == Handler(svc, req)
  {
  }

  /**
   * A valid request whose batch loop finishes gets the 200 with the zip of the
   * encoded images and the captions, whatever their lengths, when the
   * captions parse, and the caption failure as an exception when they do not.
   */
  lemma ValidRequestAnswer(svc: Services, req: HttpRequest, imageCount: int, run: Run)
    requires req.httpMethod != "OPTIONS"
    requires ImageCount(req, svc.toInt) == Some(imageCount) && imageCount <= MAX_IMAGE_COUNT
    requires BatchOutcome(svc.generate, RequestParam(req, "image_prompt", DEFAULT_IMAGE_PROMPT), imageCount) == Some(run)
    ensures var captions := ParseCaptions(svc.parseJson,
        svc.caption(ImageParts(run.images), RequestParam(req, "desc_prompt", DEFAULT_DESCRIPTION_PROMPT)));
      && (captions.Success? ==>
           Handler(svc, req) == Responded(Response(200, Items(Zip(EncodedImages(svc.encode, run.images), captions.value)),
                                                   [("Access-Control-Allow-Origin", "*")])))
      && (captions.Failure? ==> Handler(svc, req) == Raised(CaptionFailure(captions.error)))
  {
  }

  /** A provider that returns no images leaves a valid request for a positive count unanswered. */
  lemma SilentProviderHangsRequest(svc: Services, req: HttpRequest, imageCount: int)
    requires forall k: nat, r: ImageRequest :: svc.generate(k, r) == []
    requires req.httpMethod != "OPTIONS"
    requires ImageCount(req, svc.toInt) == Some(imageCount) && 0 < imageCount <= MAX_IMAGE_COUNT
    ensures Handler(svc, req) == Diverges
  {
    SilentProviderNoOutcome(svc.generate, RequestParam(req, "image_prompt", DEFAULT_IMAGE_PROMPT), imageCount);
  }

  /**
   * A 200 answer pairs generated image i (base64-encoded) with caption i, as
   * many items as the shorter of the two lists; a caption failure never turns
   * into a 200.
   */
  lemma ResponsePairsImagesWithCaptions(svc: Services, req: HttpRequest)
    requires Handler(svc, req).Responded? && Handler(svc, req).response.status == 200
    ensures req.httpMethod != "OPTIONS"
    ensures var count := ImageCount(req, svc.toInt);
      && count.Some? && count.value <= MAX_IMAGE_COUNT
      && var batches := BatchOutcome(svc.generate, RequestParam(req, "image_prompt", DEFAULT_IMAGE_PROMPT), count.value);
         && batches.Some?
         && var images := batches.value.images;
            var captions := ParseCaptions(svc.parseJson,
              svc.caption(ImageParts(images), RequestParam(req, "desc_prompt", DEFAULT_DESCRIPTION_PROMPT)));
            var resp := Handler(svc, req).response;
            && captions.Success?
            && resp.headers == [("Access-Control-Allow-Origin", "*")]
            && resp.body.Items?
            && |resp.body.items| == Min(|images|, |captions.value|)
            && forall i :: 0 <= i < |resp.body.items| ==>
                 resp.body.items[i] == ResponseItem(svc.encode(images[i].imageBytes),
                                                    captions.value[i].description, captions.value[i].title)
  {
  }

  /**
   * End to end: a provider that returns exactly what is asked for, and a
   * captioning answer that parses to one caption per image, give a 200 with
   * exactly `image_count` items in generation order.
   */
  lemma ExactProvidersAnswerEveryImage(svc: Services, req: HttpRequest, imageCount: nat)
    requires ExactlyAsked(svc.generate)
    requires req.httpMethod != "OPTIONS"
    requires ImageCount(req, svc.toInt) == Some(imageCount)
    requires imageCount <= MAX_IMAGE_COUNT
    requires var batches := BatchOutcome(svc.generate, RequestParam(req, "image_prompt", DEFAULT_IMAGE_PROMPT), imageCount);
      batches.Some? &&
      var captions := ParseCaptions(svc.parseJson,
        svc.caption(ImageParts(batches.value.images), RequestParam(req, "desc_prompt", DEFAULT_DESCRIPTION_PROMPT)));
      captions.Success? && |captions.value| == |batches.value.images|
    ensures Handler(svc, req).Responded?
    ensures Handler(svc, req).response.status == 200
    ensures Handler(svc, req).response.body.Items?
    ensures |Handler(svc, req).response.body.items| == imageCount
  {
    var prompt := RequestParam(req, "image_prompt", DEFAULT_IMAGE_PROMPT);
    ProgressingOutcome(svc.generate, prompt, imageCount);
    ExactProviderOutcome(svc.generate, prompt, imageCount);
  }

  /** The loop of `get_image` over the images: base64 strings and caption parts, in order. */
  method EncodeImages(encode: seq<bv8> -> string, images: seq<GeneratedImage>)
    returns (imageStrings: seq<string>, captionInput: seq<seq<bv8>>)
    ensures |imageStrings| == |images| && |captionInput| == |images|
    ensures forall i :: 0 <= i < |images| ==>
      imageStrings[i] == encode(images[i].imageBytes) && captionInput[i] == images[i].imageBytes
  {
    imageStrings, captionInput := [], [];
    for i := 0 to |images|
      invariant |imageStrings| == i && |captionInput| == i
      invariant forall k :: 0 <= k < i ==>
        imageStrings[k] == encode(images[k].imageBytes) && captionInput[k] == images[k].imageBytes
    {
      var tempBytes := images[i].imageBytes;
      imageStrings := imageStrings + [encode(tempBytes)];
      captionInput := captionInput + [tempBytes];
    }
  }

  /** The `zip` loop of `get_image` that builds the response items. */
  method AssembleItems(imageStrings: seq<string>, captions: seq<CaptionEntry>)
    returns (items: seq<ResponseItem>)
    ensures items == Zip(imageStrings, captions)
  {
    items := [];
    var n := Min(|imageStrings|, |captions|);
    for i := 0 to n
      invariant |items| == i
      invariant forall k :: 0 <= k < i ==>
        items[k] == ResponseItem(imageStrings[k], captions[k].description, captions[k].title)
    {
      items := items + [ResponseItem(imageStrings[i], captions[i].description, captions[i].title)];
    }
  }

  /**
   * `get_image`, for an image provider that returns at least one image
   * whenever asked for some, so that its batch loop ends.
   */
  method GetImage(svc: Services, req: HttpRequest) returns (out: Outcome)
    requires Progressing(svc.generate)
    ensures out == Handler(svc, req)
  {
    if req.httpMethod == "OPTIONS" {
      return Responded(Response(204, Text(""), PreflightHeaders()));
    }
    var imagePrompt := RequestParam(req, "image_prompt", DEFAULT_IMAGE_PROMPT);
    var inputPrompt := RequestParam(req, "desc_prompt", DEFAULT_DESCRIPTION_PROMPT);
    var parsedCount := ImageCount(req, svc.toInt);
    if parsedCount.None? {
      return Raised(InvalidImageCount);
    }
    var imageCount := parsedCount.value;
    if imageCount > MAX_IMAGE_COUNT {
      return Responded(Response(406, Text(TOO_MANY_IMAGES), []));
    }
    var images, calls := GetImagesWithCount(svc.generate, imagePrompt, imageCount);
    ProgressingOutcome(svc.generate, imagePrompt, imageCount);
    var imageStrings, captionInput := EncodeImages(svc.encode, images);
    assert imageStrings == EncodedImages(svc.encode, images);
    assert captionInput == ImageParts(images);
    var captions := svc.caption(captionInput, inputPrompt);
    var captionsList := MakeCaptions(svc.parseJson, captions);
    if captionsList.Failure? {
      return Raised(CaptionFailure(captionsList.error));
    }
    var respImages := AssembleItems(imageStrings, captionsList.value);
    out := Responded(Response(200, Items(respImages), [("Access-Control-Allow-Origin", "*")]));
  }
}
