# Image generation cloud function, modelled in Dafny

This project models one HTTP-triggered cloud function, `get_image` in
`Functions/getImages.py`. On an OPTIONS request it answers a CORS preflight. On
any other request it does the following:

- reads `image_prompt`, `desc_prompt` and `image_count` from the JSON body, or
  from the query string when there is no non-empty body;
- refuses more than 5 images with a 406;
- gets the images from the image-generation provider, in batches of at most 4
  per call (`get_images_with_count`);
- asks the captioning model once for a title and description of every image;
- post-processes the model's text (`make_captions`): it drops an optional
  "```json" fence by fixed offsets, parses the JSON and maps each
  `{title, info}` object to `{title, description}`;
- pairs image i with caption i, as Python's `zip` does.

The modules follow the function's three pieces:

- `ImageBatches` (`image_batches.dfy`) is the batch loop. The image provider
  is an oracle. It is a total function from the call's position and its request
  to the images returned, so each call may answer differently. `Loop` is the
  while loop as a function with fuel: it runs at most `fuel` iterations and
  gives `None` when they run out. `GetImagesWithCount` is the imperative loop,
  and its `ensures` ties it to `Loop`.
- `Captions` (`captions.dfy`) is the fence strip, with Python's slice
  semantics written out (`PySlice`), and the record mapping. `CaptionsOf` is
  the loop of `make_captions` as a function, and `MakeCaptions` is the
  imperative loop proved equal to it. The JSON parser is an oracle. It turns a
  text into what iterating over the decoded value yields (`Decoded`), or
  fails. A list yields its elements; an object yields its keys, and a string
  its characters, none of which are objects. A number, a boolean or null
  cannot be iterated at all.
- `ImageFunction` (`get_image.dfy`) is the handler. `Handler` is the whole
  request as a ghost function, defined for every provider. When the batch loop
  never ends, its outcome is `Diverges`. `GetImage` is the imperative version
  that calls the two methods above, and it is proved equal to `Handler`. The
  providers, the parser, base64 encoding and Python's `int` are fields of
  `Services`.
- `Wrappers` (`wrappers.dfy`) holds `Option`, `Result` and `Min`.

Uncaught exceptions are modelled as `Outcome.Raised`. These are:

- `int` failing on `image_count`;
- the `ValueError` of `captions.text` on an answer without text, for example a
  blocked one (`NoResponseText`);
- `json.loads` failing;
- the `TypeError` of `for caption in ...` over a value that cannot be iterated
  (`NotIterable`);
- the `TypeError` of `caption["title"]` on an element that is not an object
  (`NotAnObject`), for example any element of a decoded object or string;
- a `KeyError` on a missing `"title"` or `"info"`.

`BatchOutcome` is the batch loop's result with no bound on its
iterations: `Some` exactly when some number of iterations finishes it.

Three facts about the code that the model keeps:

- The code does not check that there are as many captions as images. `zip`
  truncates to the shorter list, and so does `Zip`.
- The 406 answer is a bare `(body, status)` tuple, so it carries no
  `Access-Control-Allow-Origin` header. The model gives it an empty header
  list.
- A JSON body that is present but lacks a key does not fall back to the query
  string. The key takes its default (`RequestParam`).

## Model

| member | source | states |
|---|---|---|
| `ImageBatches.Loop` | Functions/getImages.py:92-108 | after the loop finishes, it holds at least image_count images; the images and calls it started with are kept as a prefix; each iteration makes at most one call |
| `ImageBatches.BatchOutcome` | Functions/getImages.py:89-110 | the loop's unbounded result: present exactly when some iteration bound finishes the loop, and then equal to the result for every bound that finishes it |
| `ImageBatches.LoopOutcomeUnique` | Functions/getImages.py:92-110 | any two iteration bounds that both finish the loop give the same images and calls |
| `ImageBatches.ProgressingOutcome` | Functions/getImages.py:92-110 | a provider that returns at least one image whenever asked for some makes the loop finish, with the result reached within Fuel(image_count) iterations |
| `ImageBatches.SilentProviderNoOutcome` | Functions/getImages.py:92-108 | a provider that always returns no images leaves the loop without a result for any positive image_count |
| `ImageBatches.GetImagesWithCount` | Functions/getImages.py:89-110 | the loop's result and its call trace are what `Loop` gives with Fuel(image_count) iterations; at least image_count images come back; for image_count <= 0 no call is made and the list is empty |
| `ImageBatches.BatchSizes` | Functions/getImages.py:92-108 | call i asks for min(4, image_count - images so far), which is between 1 and 4 and no more than remain; it was issued only while images were missing; the result is what the calls returned, concatenated in call order |
| `ImageBatches.LoopKeepsTrace` | Functions/getImages.py:92-110 | each iteration keeps the count equal to the list's length (images == what the issued calls returned), keeps earlier calls and images as an unchanged prefix, and the loop stops only with at least image_count images |
| `ImageBatches.EarlierImagesArePrefix` | Functions/getImages.py:107 | the images of the first i calls are a prefix of the images of all calls, so `extend` never reorders or drops earlier images |
| `ImageBatches.LoopTerminates` | Functions/getImages.py:92-108 | if the provider returns at least one image whenever asked for some, the loop finishes within image_count iterations |
| `ImageBatches.FuelIrrelevant` | Functions/getImages.py:92-110 | once the loop has finished, allowing more iterations does not change images or calls, so the result does not depend on the fuel bound |
| `ImageBatches.NeverOvershoots` | Functions/getImages.py:92-108 | if the provider never returns more than asked for, the loop ends with exactly max(image_count, 0) images: no overshoot, no double counting |
| `ImageBatches.ExactCallCount` | Functions/getImages.py:92-110 | if the provider returns exactly what is asked for, from any state with m <= image_count images the loop makes ceil((image_count - m) / 4) more calls and ends with exactly image_count images |
| `ImageBatches.ExactProviderOutcome` | Functions/getImages.py:89-110 | from the start, an exact provider gives ceil(image_count / 4) calls and exactly image_count images |
| `ImageBatches.SilentProviderNeverFinishes` | Functions/getImages.py:92-108 | a provider that always returns no images keeps the loop running for any positive image_count: no iteration bound lets it finish |
| `Captions.PySlice` | Functions/getImages.py:117 | Python's s[start:stop] with step 1: the bounds are normalised (negative counts from the end, then clamped to the length), and the result is empty when they cross, else s from the start bound to the stop bound |
| `Captions.PyBound` | Functions/getImages.py:117 | a slice bound inside the sequence is kept, a negative one counts from the end, and one beyond either end is clamped to 0 or the length |
| `Captions.StripFence` | Functions/getImages.py:116-118 | a text starting with "```json" is parsed as text[7:len-4] when it has at least 11 characters, and as the empty text otherwise; any other text is parsed unchanged |
| `Captions.StripFenceRoundTrip` | Functions/getImages.py:116-117 | "```json" + body + any 4-character closer is stripped back to exactly body |
| `Captions.MissingCaptionKey` | Functions/getImages.py:121-122 | no key is missing exactly when the object has both "title" and "info"; a reported key is absent from the object; "info" is only reported when "title" is present |
| `Captions.ElementError` | Functions/getImages.py:120-122 | the two lookups succeed on an element exactly when it is an object with both keys; a non-object raises TypeError; an object raises the KeyError of a key it lacks |
| `Captions.CaptionsOf` | Functions/getImages.py:119-124 | a success has one caption per element; a failure is the TypeError of a non-object or a KeyError for "title" or "info" |
| `Captions.ParseCaptions` | Functions/getImages.py:113-124 | an answer without text fails with the ValueError of `captions.text`; a text the parser rejects after the fence strip fails with the decode error; a value that cannot be iterated fails with TypeError; it succeeds exactly when the value is iterable and every element is an object with both keys, and then caption i is element i's "title" and "info" |
| `Captions.CaptionsOfSuccess` | Functions/getImages.py:119-124 | the mapping succeeds if and only if every element is an object with both "title" and "info"; then it gives one caption per element, in order, caption i being {title: element i's "title", description: element i's "info"} |
| `Captions.CaptionsOfFailure` | Functions/getImages.py:120-122 | a failure is the exception of the first element that is not a complete object: every earlier element is one, a non-object gives TypeError, and "title" is reported before "info" |
| `Captions.FailureStops` | Functions/getImages.py:120-122 | once a prefix of the elements fails, the whole call fails in the same way: no partial list is returned |
| `Captions.MakeCaptions` | Functions/getImages.py:113-124 | the loop returns `ParseCaptions` on the model's answer: the missing-text error, a parse failure when the parser rejects the fence-stripped text, the TypeError of a value that cannot be iterated, else the mapping of the elements |
| `ImageFunction.PreflightIgnoresRequest` | Functions/getImages.py:39-48 | an OPTIONS request gets 204, an empty body and the four CORS headers, whatever else it holds |
| `ImageFunction.RequestParam` | Functions/getImages.py:50-57 | a parameter comes from the JSON body when the body is a non-empty object, taking the default when that body lacks the key even if the query args have it; otherwise it comes from the query args, or takes the default |
| `ImageFunction.ImageCount` | Functions/getImages.py:55-59 | `int` can only fail on a value present in the chosen source; a count in the JSON body is `int` of it; a count absent from a non-empty body is 1; without such a body it is `int` of the query arg when the args hold one, and 1 when they do not |
| `ImageFunction.Handler` | Functions/getImages.py:37-86 | the handler only ever answers 204, 406 or 200; an OPTIONS request always gets the 204 answer, never an exception, a hang or another status |
| `ImageFunction.BadImageCountRaises` | Functions/getImages.py:59 | a non-OPTIONS request whose image_count `int` rejects escapes with that exception |
| `ImageFunction.TooManyImagesRejected` | Functions/getImages.py:59-62 | image_count > 5 gives 406 with "Invalid image_count. Maximum image count is 5." and no headers; the answer is the same for any other providers, parser and encoder |
| `ImageFunction.ValidRequestAnswer` | Functions/getImages.py:59-86 | a non-OPTIONS request with image_count <= 5 whose batch loop finishes gets the 200 with the one CORS header and the zip of the encoded images with the captions when the captions parse, and the caption failure as an exception when they do not |
| `ImageFunction.SilentProviderHangsRequest` | Functions/getImages.py:64-108 | with a provider that returns no images, a valid request for 1 to 5 images never gets an answer |
| `ImageFunction.Zip` | Functions/getImages.py:81-83 | the pairing has min(images, captions) items; item i is image i's string with caption i's description and title |
| `ImageFunction.ResponsePairsImagesWithCaptions` | Functions/getImages.py:61-86 | a 200 only comes from a non-OPTIONS request with image_count <= 5 whose batch loop finished and whose captions parsed; it carries the one CORS header and min(images, captions) items, item i pairing base64(image i) with caption i's description and title |
| `ImageFunction.ExactProvidersAnswerEveryImage` | Functions/getImages.py:59-86 | with a provider that returns what is asked for and captions that parse to one per image, a valid request gets a 200 with exactly image_count items |
| `ImageFunction.EncodeImages` | Functions/getImages.py:65-73 | item i of the two lists it builds is base64 of image i's bytes and image i's bytes, one per image, in order |
| `ImageFunction.AssembleItems` | Functions/getImages.py:81-83 | the response loop builds exactly `Zip` of the image strings and captions |
| `ImageFunction.GetImage` | Functions/getImages.py:37-86 | the imperative handler answers exactly what `Handler` specifies for every request |

## Left out

- GetImagesWithCount: it requires that the provider returns at least one image whenever asked for some. The source does not check this. Without it the loop need not end (`SilentProviderNeverFinishes`), and a non-ending loop cannot be modelled as a total method.
- GetImage: it requires the same assumption, because it calls `GetImagesWithCount`. The assumption only matters on the generating path. `Handler` has no such requirement: there a non-ending loop is the outcome `Diverges`, and the OPTIONS, bad-count and 406 paths are stated for every provider.
- GetImagesWithCount: the call number it passes to the provider oracle is a modelling device. The source has no such counter. It stands for the provider answering each call differently.
- Vertex AI initialisation, the model handles, the generation and safety settings, and the `image/png` MIME type of the caption parts (lines 14-34, 70-72). These are configuration of foreign services.
- Exceptions raised by the two provider calls are not modelled. The source does not catch or handle them.
- The caption prompt text and `html.escape` (line 58). The captioning oracle receives the raw description prompt in place of the templated instruction.
- `json.loads`, `base64.b64encode` and `int(...)` are oracles. A JSON value is kept as its text, so a non-string title or info is not distinguished.
- A JSON body value that is not a string is not modelled, because request parameters are text. For example, `{"desc_prompt": null, "image_count": 9}` makes `html.escape` raise AttributeError at line 58, before the 406 check at line 61. The model cannot express that request.
- A JSON body that is falsy but not an object (`[]`, `0`, `""`, `false`) falls back to the query args, like a missing body, and the model covers it as json = None. A truthy body that is not an object (for example `[1]` or `3`) is not modelled. On it, `.get` raises AttributeError.
- `flask.jsonify`, response objects and their default headers, `request.environ` (the unused `http_origin`, line 38), and the `print` at line 109.
- `src/app/loading/loading.component.ts` is not part of this model. It is a 3D loading animation of the web front end.
