/**
 * The batched image accumulation of `get_images_with_count`: ask the image
 * provider for at most VERTEX_MAX_IMAGE_COUNT images per call until the
 * accumulated list holds at least the requested number of images.
 *
 * The provider is an oracle: a total function from the call's position
 * (0 for the first call, 1 for the second, ...) and the request to the images
 * it returns, so every call may answer differently.
 */
module ImageBatches {
  import opened Wrappers

  /** The image provider's own ceiling on images per call. */
  const VERTEX_MAX_IMAGE_COUNT: nat := 4

  /** An image as the provider returns it: its raw bytes. */
  datatype GeneratedImage = GeneratedImage(imageBytes: seq<bv8>)

  /** The arguments of one `generate_images` call. */
  datatype ImageRequest = ImageRequest(
    prompt: string,
    numberOfImages: nat,
    language: string,
    aspectRatio: string,
    safetyFilterLevel: string,
    personGeneration: string)

  /** The provider: position of the call and its request to the images returned. */
  type ImageProvider = (nat, ImageRequest) -> seq<GeneratedImage>

  /** One provider call as it happened: what was asked and what came back. */
  datatype Call = Call(request: ImageRequest, returned: seq<GeneratedImage>)

  /** The accumulated images together with the calls that produced them. */
  datatype Run = Run(images: seq<GeneratedImage>, calls: seq<Call>)

  /** The request for `n` images, with the fixed generation options of the source. */
  function BatchRequest(prompt: string, n: nat): ImageRequest {
    ImageRequest(prompt, n, "en", "1:1", "block_some", "allow_adult")
  }

  /** Enough loop iterations for a provider that returns at least one image per call. */
  function Fuel(count: int): nat {
    if count < 0 then 0 else count
  }

  /** Ceiling of a / b. */
  function CeilDiv(a: nat, b: nat): nat
    requires 0 < b
  {
    (a + b - 1) / b
  }

  /** Everything the calls returned, in call order. */
  function Returned(calls: seq<Call>): seq<GeneratedImage>
    decreases |calls|
  {
    if calls == [] then [] else Returned(calls[..|calls| - 1]) + calls[|calls| - 1].returned
  }

  /** The provider returns at least one image whenever it is asked for at least one. */
  ghost predicate Progressing(gen: ImageProvider) {
    forall k: nat, r: ImageRequest :: 1 <= r.numberOfImages ==> 1 <= |gen(k, r)|
  }

  /** The provider never returns more images than asked for. */
  ghost predicate AtMostAsked(gen: ImageProvider) {
    forall k: nat, r: ImageRequest :: |gen(k, r)| <= r.numberOfImages
  }

  /** The provider returns exactly as many images as asked for. */
  ghost predicate ExactlyAsked(gen: ImageProvider) {
    forall k: nat, r: ImageRequest :: |gen(k, r)| == r.numberOfImages
  }

  /**
   * The while loop of `get_images_with_count`, run from the state (images,
   * calls) for at most `fuel` iterations: None when the fuel runs out before
   * the loop condition fails.
   */
  function Loop(gen: ImageProvider, prompt: string, count: int,
                images: seq<GeneratedImage>, calls: seq<Call>, fuel: nat): (r: Option<Run>)
    ensures r.Some? ==>
      && count <= |r.value.images|
      && images <= r.value.images
      && calls <= r.value.calls
      && |r.value.calls| <= |calls| + fuel
    decreases fuel
  {
    if count <= |images| then Some(Run(images, calls))
    else if fuel == 0 then None
    else
      var request := BatchRequest(prompt, Min(VERTEX_MAX_IMAGE_COUNT, count - |images|));
      var returned := gen(|calls|, request);
      Loop(gen, prompt, count, images + returned, calls + [Call(request, returned)], fuel - 1)
  }

  /**
   * Call i of `calls` is the one the loop issues: it was made while fewer than
   * `count` images had been gathered, asked for the smaller of the per-call
   * ceiling and the number still missing, and got what the provider returns
   * for that position and request.
   */
  ghost predicate IssuedAt(gen: ImageProvider, prompt: string, count: int, calls: seq<Call>, i: nat)
    requires i < |calls|
  {
    var before := |Returned(calls[..i])|;
    && before < count
    && calls[i].request == BatchRequest(prompt, Min(VERTEX_MAX_IMAGE_COUNT, count - before))
    && calls[i].returned == gen(i, calls[i].request)
  }

  /** The loop state: the images are exactly what the issued calls returned. */
  ghost predicate Issued(gen: ImageProvider, prompt: string, count: int,
                         images: seq<GeneratedImage>, calls: seq<Call>)
  {
    && images == Returned(calls)
    && forall i: nat :: i < |calls| ==> IssuedAt(gen, prompt, count, calls, i)
  }

  lemma ReturnedSnoc(calls: seq<Call>, c: Call)
    ensures Returned(calls + [c]) == Returned(calls) + c.returned
  {
  }

  /** What earlier calls returned is a prefix of what all calls returned. */
  lemma {:induction false} EarlierImagesArePrefix(calls: seq<Call>, i: nat)
    requires i <= |calls|
    ensures Returned(calls[..i]) <= Returned(calls)
    decreases |calls|
  {
    if i < |calls| {
      var init := calls[..|calls| - 1];
      assert calls[..i] == init[..i];
      EarlierImagesArePrefix(init, i);
    } else {
      assert calls[..i] == calls;
    }
  }

  /**
   * Every iteration keeps the loop state an issued trace, never drops or
   * rewrites an earlier image or call, and the loop only stops once at least
   * `count` images are there.
   */
  lemma {:induction false} LoopKeepsTrace(gen: ImageProvider, prompt: string, count: int,
                                          images: seq<GeneratedImage>, calls: seq<Call>,
                                          fuel: nat, r: Run)
    requires Issued(gen, prompt, count, images, calls)
    requires Loop(gen, prompt, count, images, calls, fuel) == Some(r)
    ensures Issued(gen, prompt, count, r.images, r.calls)
    ensures count <= |r.images|
    ensures calls <= r.calls && images <= r.images
    decreases fuel
  {
    if |images| < count {
      var request := BatchRequest(prompt, Min(VERTEX_MAX_IMAGE_COUNT, count - |images|));
      var returned := gen(|calls|, request);
      var calls' := calls + [Call(request, returned)];
      ReturnedSnoc(calls, Call(request, returned));
      forall i: nat | i < |calls'|
        ensures IssuedAt(gen, prompt, count, calls', i)
      {
        assert calls'[..i] == calls[..i] by {
          if i == |calls| { assert calls'[..i] == calls; }
        }
        if i < |calls| { assert IssuedAt(gen, prompt, count, calls, i); }
      }
      LoopKeepsTrace(gen, prompt, count, images + returned, calls', fuel - 1, r);
    }
  }

  /**
   * Every call the loop makes asks for between 1 and VERTEX_MAX_IMAGE_COUNT
   * images, never for more than are still missing, and the result is the
   * concatenation of what the calls returned, in call order.
   */
  lemma BatchSizes(gen: ImageProvider, prompt: string, count: int, fuel: nat, r: Run)
    requires Loop(gen, prompt, count, [], [], fuel) == Some(r)
    ensures r.images == Returned(r.calls)
    ensures count <= 0 ==> r == Run([], [])
    ensures forall i :: 0 <= i < |r.calls| ==>
      var n := r.calls[i].request.numberOfImages;
      var before := |Returned(r.calls[..i])|;
      && before < count
      && n == Min(VERTEX_MAX_IMAGE_COUNT, count - before)
      && 1 <= n <= VERTEX_MAX_IMAGE_COUNT
      && n <= count - before
      && r.calls[i].returned == gen(i, r.calls[i].request)
  {
    LoopKeepsTrace(gen, prompt, count, [], [], fuel, r);
    forall i | 0 <= i < |r.calls|
      ensures |Returned(r.calls[..i])| < count
      ensures r.calls[i].request == BatchRequest(prompt, Min(VERTEX_MAX_IMAGE_COUNT, count - |Returned(r.calls[..i])|))
      ensures r.calls[i].returned == gen(i, r.calls[i].request)
    {
      assert IssuedAt(gen, prompt, count, r.calls, i);
    }
  }

  /** A provider that answers at least one image per call lets the loop finish within Fuel(count) iterations. */
  lemma {:induction false} LoopTerminates(gen: ImageProvider, prompt: string, count: int,
                                          images: seq<GeneratedImage>, calls: seq<Call>, fuel: nat)
    requires Progressing(gen)
    requires count - |images| <= fuel
    ensures Loop(gen, prompt, count, images, calls, fuel).Some?
    decreases fuel
  {
    if |images| < count {
      var request := BatchRequest(prompt, Min(VERTEX_MAX_IMAGE_COUNT, count - |images|));
      var returned := gen(|calls|, request);
      assert 1 <= |returned|;
      LoopTerminates(gen, prompt, count, images + returned, calls + [Call(request, returned)], fuel - 1);
    }
  }

  /** Once the loop has finished, more fuel does not change its outcome. */
  lemma {:induction false} FuelIrrelevant(gen: ImageProvider, prompt: string, count: int,
                                          images: seq<GeneratedImage>, calls: seq<Call>,
                                          fuel: nat, more: nat)
    requires Loop(gen, prompt, count, images, calls, fuel).Some?
    requires fuel <= more
    ensures Loop(gen, prompt, count, images, calls, more) == Loop(gen, prompt, count, images, calls, fuel)
    decreases fuel
  {
    if |images| < count {
      var request := BatchRequest(prompt, Min(VERTEX_MAX_IMAGE_COUNT, count - |images|));
      var returned := gen(|calls|, request);
      FuelIrrelevant(gen, prompt, count, images + returned, calls + [Call(request, returned)], fuel - 1, more - 1);
    }
  }

  /**
   * A provider that never returns more than asked for makes the loop stop at
   * exactly `count` images: it neither overshoots nor counts an image twice.
   */
  lemma {:induction false} NeverOvershoots(gen: ImageProvider, prompt: string, count: int,
                                           images: seq<GeneratedImage>, calls: seq<Call>,
                                           fuel: nat, r: Run)
    requires AtMostAsked(gen)
    requires |images| <= Fuel(count)
    requires Loop(gen, prompt, count, images, calls, fuel) == Some(r)
    ensures |r.images| == Fuel(count)
    decreases fuel
  {
    if |images| < count {
      var request := BatchRequest(prompt, Min(VERTEX_MAX_IMAGE_COUNT, count - |images|));
      var returned := gen(|calls|, request);
      assert |returned| <= count - |images|;
      NeverOvershoots(gen, prompt, count, images + returned, calls + [Call(request, returned)], fuel - 1, r);
    }
  }

  /**
   * A provider that returns exactly what is asked for makes the loop issue
   * ceil(missing / VERTEX_MAX_IMAGE_COUNT) calls and gather exactly `count` images.
   */
  lemma {:induction false} ExactCallCount(gen: ImageProvider, prompt: string, count: int,
                                          images: seq<GeneratedImage>, calls: seq<Call>,
                                          fuel: nat, r: Run)
    requires ExactlyAsked(gen)
    requires |images| <= count
    requires Loop(gen, prompt, count, images, calls, fuel) == Some(r)
    ensures |r.calls| == |calls| + CeilDiv(count - |images|, VERTEX_MAX_IMAGE_COUNT)
    ensures |r.images| == count
    decreases fuel
  {
    var missing := count - |images|;
    if 0 < missing {
      var request := BatchRequest(prompt, Min(VERTEX_MAX_IMAGE_COUNT, missing));
      var returned := gen(|calls|, request);
      assert |returned| == Min(VERTEX_MAX_IMAGE_COUNT, missing);
      ExactCallCount(gen, prompt, count, images + returned, calls + [Call(request, returned)], fuel - 1, r);
      if missing <= VERTEX_MAX_IMAGE_COUNT {
        assert CeilDiv(missing, VERTEX_MAX_IMAGE_COUNT) == 1;
      } else {
        assert CeilDiv(missing, VERTEX_MAX_IMAGE_COUNT) == 1 + CeilDiv(missing - VERTEX_MAX_IMAGE_COUNT, VERTEX_MAX_IMAGE_COUNT);
      }
    }
  }

  /** From the start: an exact provider gives ceil(count / 4) calls and exactly count images. */
  lemma ExactProviderOutcome(gen: ImageProvider, prompt: string, count: nat)
    requires ExactlyAsked(gen)
    ensures Loop(gen, prompt, count, [], [], Fuel(count)).Some?
    ensures var r := Loop(gen, prompt, count, [], [], Fuel(count)).value;
      && |r.calls| == CeilDiv(count, VERTEX_MAX_IMAGE_COUNT)
      && |r.images| == count
  {
    LoopTerminates(gen, prompt, count, [], [], Fuel(count));
    ExactCallCount(gen, prompt, count, [], [], Fuel(count), Loop(gen, prompt, count, [], [], Fuel(count)).value);
  }

  /**
   * A provider that returns no images at all keeps the loop running forever
   * for a positive count: no amount of fuel makes it finish.
   */
  lemma {:induction false} SilentProviderNeverFinishes(gen: ImageProvider, prompt: string, count: int,
                                                      calls: seq<Call>, fuel: nat)
    requires forall k: nat, r: ImageRequest :: gen(k, r) == []
    requires 0 < count
    ensures Loop(gen, prompt, count, [], calls, fuel) == None
    decreases fuel
  {
    if 0 < fuel {
      var request := BatchRequest(prompt, Min(VERTEX_MAX_IMAGE_COUNT, count));
      var returned := gen(|calls|, request);
      assert [] + returned == [];
      SilentProviderNeverFinishes(gen, prompt, count, calls + [Call(request, returned)], fuel - 1);
    }
  }

  /** All finishing fuel bounds give the same run. */
  lemma LoopOutcomeUnique(gen: ImageProvider, prompt: string, count: int, fuel: nat)
    requires Loop(gen, prompt, count, [], [], fuel).Some?
    ensures forall more: nat :: Loop(gen, prompt, count, [], [], more).Some? ==>
      Loop(gen, prompt, count, [], [], more) == Loop(gen, prompt, count, [], [], fuel)
  {
    forall more: nat | Loop(gen, prompt, count, [], [], more).Some?
      ensures Loop(gen, prompt, count, [], [], more) == Loop(gen, prompt, count, [], [], fuel)
    {
      if fuel <= more {
        FuelIrrelevant(gen, prompt, count, [], [], fuel, more);
      } else {
        FuelIrrelevant(gen, prompt, count, [], [], more, fuel);
      }
    }
  }

  /**
   * What the while loop of `get_images_with_count` ends with, with no bound
   * on its iterations: None exactly when it never finishes.
   */
  ghost function BatchOutcome(gen: ImageProvider, prompt: string, count: int): (r: Option<Run>)
    ensures r.Some? <==> exists fuel: nat :: Loop(gen, prompt, count, [], [], fuel).Some?
    ensures forall fuel: nat :: Loop(gen, prompt, count, [], [], fuel).Some? ==>
      r == Loop(gen, prompt, count, [], [], fuel)
  {
    if exists fuel: nat :: Loop(gen, prompt, count, [], [], fuel).Some? then
      var fuel: nat :| Loop(gen, prompt, count, [], [], fuel).Some?;
      LoopOutcomeUnique(gen, prompt, count, fuel);
      Loop(gen, prompt, count, [], [], fuel)
    else
      None
  }

  /** A provider that answers at least one image per call makes the loop finish within Fuel(count) iterations. */
  lemma ProgressingOutcome(gen: ImageProvider, prompt: string, count: int)
    requires Progressing(gen)
    ensures BatchOutcome(gen, prompt, count).Some?
    ensures BatchOutcome(gen, prompt, count) == Loop(gen, prompt, count, [], [], Fuel(count))
  {
    LoopTerminates(gen, prompt, count, [], [], Fuel(count));
  }

  /** A provider that returns no images never lets the loop finish for a positive count. */
  lemma SilentProviderNoOutcome(gen: ImageProvider, prompt: string, count: int)
    requires forall k: nat, r: ImageRequest :: gen(k, r) == []
    requires 0 < count
    ensures BatchOutcome(gen, prompt, count) == None
  {
    forall fuel: nat
      ensures Loop(gen, prompt, count, [], [], fuel) == None
    {
      SilentProviderNeverFinishes(gen, prompt, count, [], fuel);
    }
  }

  /**
   * `get_images_with_count`: the running count is reset to the list's length
   * after every call. The provider must return at least one image whenever it
   * is asked for some (the source does not check this; without it the loop
   * may never end, see SilentProviderNeverFinishes).
   */
  method GetImagesWithCount(gen: ImageProvider, imagePrompt: string, imageCount: int)
    returns (images: seq<GeneratedImage>, ghost calls: seq<Call>)
    requires Progressing(gen)
    ensures Loop(gen, imagePrompt, imageCount, [], [], Fuel(imageCount)) == Some(Run(images, calls))
    ensures imageCount <= |images|
    ensures imageCount <= 0 ==> images == [] && calls == []
  {
    var currentImageCount := 0;
    var callNumber := 0;
    images := [];
    calls := [];
    while currentImageCount < imageCount
      invariant currentImageCount == |images| && callNumber == |calls|
      invariant |calls| <= |images| && |calls| <= Fuel(imageCount)
      invariant imageCount <= 0 ==> images == [] && calls == []
      invariant Loop(gen, imagePrompt, imageCount, images, calls, Fuel(imageCount) - |calls|)
             == Loop(gen, imagePrompt, imageCount, [], [], Fuel(imageCount))
      decreases imageCount - currentImageCount
    {
      var remainingImageCount := imageCount - currentImageCount;
      var allowedImageCount := Min(VERTEX_MAX_IMAGE_COUNT, remainingImageCount);
      var request := BatchRequest(imagePrompt, allowedImageCount);
      var tempImages := gen(callNumber, request);
      images := images + tempImages;
      calls := calls + [Call(request, tempImages)];
      callNumber := callNumber + 1;
      currentImageCount := |images|;
    }
  }
}
