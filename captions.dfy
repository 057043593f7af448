/**
 * The caption post-processing of `make_captions`: drop an optional JSON code
 * fence by fixed offsets, parse the text, and turn each parsed object into a
 * caption with `title` and `description`, failing on the first missing key.
 *
 * The JSON parser is an oracle: a partial function from text to what
 * iterating over the decoded value yields, each element either an object (a
 * map from key to the text of its value) or something that is not one.
 */
module Captions {
  import opened Wrappers

  /** The fence the captioning model sometimes puts before its JSON. */
  const JSON_FENCE: string := "```json"

  datatype CaptionEntry = CaptionEntry(title: string, description: string)

  /**
   * The ValueError of `captions.text` on an answer without text (blocked or
   * empty), `json.loads` failing, the TypeError of iterating over a value that
   * cannot be iterated or of indexing an element that is not an object, or the
   * KeyError raised for a missing key.
   */
  datatype CaptionError = NoResponseText | JsonDecodeError | NotIterable | NotAnObject | MissingKey(key: string)

  /** One parsed JSON object: key to the text of its value. */
  type JsonRecord = map<string, string>

  /** An element the loop meets: an object, or anything else (a string, number, list or null). */
  datatype JsonElement = JsonObject(fields: JsonRecord) | NonObject

  /**
   * What `for caption in json.loads(text)` meets: the elements in iteration
   * order, or a value that cannot be iterated (a number, a boolean or null).
   * A list yields its elements, an object its keys and a string its
   * characters, so these last two yield only NonObject elements; an empty
   * list, object or string yields none.
   */
  datatype Decoded = Iterable(elements: seq<JsonElement>) | Scalar

  /** `json.loads` with its value as the loop sees it; None when `json.loads` raises. */
  type JsonParser = string -> Option<Decoded>

  /** Python's normalisation of a slice bound for a sequence of length n (step 1). */
  function PyBound(i: int, n: nat): (j: nat)
    ensures j <= n
    ensures 0 <= i <= n ==> j == i
    ensures i < 0 && 0 <= i + n ==> j == i + n
    ensures i + n < 0 ==> j == 0
    ensures n < i ==> j == n
  {
    if i < 0 then (if i + n < 0 then 0 else i + n)
    else if i > n then n
    else i
  }

  /** Python's slice s[start:stop]: empty when the normalised bounds cross. */
  function PySlice<T>(s: seq<T>, start: int, stop: int): (r: seq<T>)
    ensures var a, b := PyBound(start, |s|), PyBound(stop, |s|);
      && |r| == (if a < b then b - a else 0)
      && forall k :: 0 <= k < |r| ==> r[k] == s[a + k]
  {
    var a, b := PyBound(start, |s|), PyBound(stop, |s|);
    if a < b then s[a..b] else []
  }

  /**
   * The text that is handed to the parser: a fenced text loses its first 7
   * and last 4 characters, and is emptied when it is shorter than 11; any
   * other text is parsed as it is.
   */
  function StripFence(text: string): (r: string)
    ensures JSON_FENCE <= text && 11 <= |text| ==> r == text[7..|text| - 4]
    ensures JSON_FENCE <= text && |text| < 11 ==> r == []
    ensures !(JSON_FENCE <= text) ==> r == text
  {
    if JSON_FENCE <= text then PySlice(text, 7, -4) else text
  }

  /** Wrapping a body in the fence and any 4-character closer gives the body back. */
  lemma StripFenceRoundTrip(body: string, closer: string)
    requires |closer| == 4
    ensures StripFence(JSON_FENCE + body + closer) == body
  {
  }

  /** The key whose lookup raises KeyError first for this object, if any. */
  function MissingCaptionKey(rec: JsonRecord): (r: Option<string>)
    ensures r.None? <==> Complete(rec)
    ensures r.Some? ==> r.value !in rec
    ensures r == Some("info") ==> "title" in rec
  {
    if "title" !in rec then Some("title")
    else if "info" !in rec then Some("info")
    else None
  }

  predicate Complete(rec: JsonRecord) {
    "title" in rec && "info" in rec
  }

  /** An element both lookups succeed on: an object with "title" and "info". */
  predicate Captionable(e: JsonElement) {
    e.JsonObject? && Complete(e.fields)
  }

  /** The exception `caption["title"]` then `caption["info"]` raise on this element, if any. */
  function ElementError(e: JsonElement): (r: Option<CaptionError>)
    ensures r.None? <==> Captionable(e)
    ensures e.NonObject? ==> r == Some(NotAnObject)
    ensures e.JsonObject? && r.Some? ==> r.value.MissingKey? && r.value.key !in e.fields
  {
    match e
    case NonObject => Some(NotAnObject)
    case JsonObject(rec) =>
      match MissingCaptionKey(rec)
      case Some(key) => Some(MissingKey(key))
      case None => None
  }

  /** The caption built from an element both lookups succeed on. */
  function EntryOf(e: JsonElement): CaptionEntry
    requires Captionable(e)
  {
    CaptionEntry(e.fields["title"], e.fields["info"])
  }

  /**
   * The loop of `make_captions` over the first |elements| elements: the
   * captions so far, or the exception of the first element that is not a
   * complete object.
   */
  function CaptionsOf(elements: seq<JsonElement>): (r: Result<seq<CaptionEntry>, CaptionError>)
    ensures r.Success? ==> |r.value| == |elements|
    ensures r.Failure? ==> r.error == NotAnObject || (r.error.MissingKey? && r.error.key in {"title", "info"})
    decreases |elements|
  {
    if elements == [] then Success([])
    else
      match CaptionsOf(elements[..|elements| - 1])
      case Failure(e) => Failure(e)
      case Success(captions) =>
        var last := elements[|elements| - 1];
        match ElementError(last)
        case Some(e) => Failure(e)
        case None => Success(captions + [EntryOf(last)])
  }

  /**
   * `make_captions` on the captioning model's answer (None when it has no
   * text): it succeeds exactly when there is text, the fence-stripped text
   * parses to an iterable value and every element is an object with both
   * keys, and then gives one caption per element, in order.
   */
  function ParseCaptions(parse: JsonParser, captions: Option<string>): (r: Result<seq<CaptionEntry>, CaptionError>)
    ensures captions.None? ==> r == Failure(NoResponseText)
    ensures captions.Some? && parse(StripFence(captions.value)).None? ==> r == Failure(JsonDecodeError)
    ensures captions.Some? && parse(StripFence(captions.value)) == Some(Scalar) ==> r == Failure(NotIterable)
    ensures r.Success? <==>
      && captions.Some?
      && parse(StripFence(captions.value)).Some?
      && parse(StripFence(captions.value)).value.Iterable?
      && forall i :: 0 <= i < |parse(StripFence(captions.value)).value.elements| ==>
           Captionable(parse(StripFence(captions.value)).value.elements[i])
    ensures r.Success? ==>
      var elements := parse(StripFence(captions.value)).value.elements;
      && |r.value| == |elements|
      && forall i :: 0 <= i < |elements| ==>
           r.value[i] == CaptionEntry(elements[i].fields["title"], elements[i].fields["info"])
  {
    match captions
    case None => Failure(NoResponseText)
    case Some(text) =>
      match parse(StripFence(text))
      case None => Failure(JsonDecodeError)
      case Some(Scalar) => Failure(NotIterable)
      case Some(Iterable(elements)) =>
        CaptionsOfSuccess(elements);
        CaptionsOf(elements)
  }

  /**
   * The captions succeed exactly when every element is an object with both
   * keys, and then caption i is element i's "title" and "info", in the same
   * order and number.
   */
  lemma {:induction false} CaptionsOfSuccess(elements: seq<JsonElement>)
    ensures CaptionsOf(elements).Success? <==> forall i :: 0 <= i < |elements| ==> Captionable(elements[i])
    ensures CaptionsOf(elements).Success? ==>
      var captions := CaptionsOf(elements).value;
      && |captions| == |elements|
      && forall i :: 0 <= i < |elements| ==>
           captions[i] == CaptionEntry(elements[i].fields["title"], elements[i].fields["info"])
    decreases |elements|
  {
    if elements != [] {
      var init := elements[..|elements| - 1];
      CaptionsOfSuccess(init);
      assert forall i :: 0 <= i < |init| ==> init[i] == elements[i];
    }
  }

  /**
   * A failure is the exception of the first element that is not a complete
   * object: every element before it is one, a non-object raises TypeError,
   * and "title" is looked up before "info".
   */
  lemma {:induction false} CaptionsOfFailure(elements: seq<JsonElement>)
    requires CaptionsOf(elements).Failure?
    ensures exists i ::
      && 0 <= i < |elements|
      && (forall j :: 0 <= j < i ==> Captionable(elements[j]))
      && !Captionable(elements[i])
      && CaptionsOf(elements).error == ElementError(elements[i]).value
    decreases |elements|
  {
    var init := elements[..|elements| - 1];
    var last := |elements| - 1;
    CaptionsOfSuccess(init);
    if CaptionsOf(init).Failure? {
      CaptionsOfFailure(init);
      var i :| 0 <= i < |init|
        && (forall j :: 0 <= j < i ==> Captionable(init[j]))
        && !Captionable(init[i])
        && CaptionsOf(init).error == ElementError(init[i]).value;
      assert forall j :: 0 <= j <= i ==> init[j] == elements[j];
    } else {
      assert forall j :: 0 <= j < last ==> init[j] == elements[j];
      assert !Captionable(elements[last]);
    }
  }

  /** Once a prefix fails, the whole list fails the same way: the loop stops there. */
  lemma {:induction false} FailureStops(elements: seq<JsonElement>, i: nat)
    requires i <= |elements|
    requires CaptionsOf(elements[..i]).Failure?
    ensures CaptionsOf(elements) == CaptionsOf(elements[..i])
    decreases |elements|
  {
    if i < |elements| {
      var init := elements[..|elements| - 1];
      assert init[..i] == elements[..i];
      FailureStops(init, i);
    } else {
      assert elements[..i] == elements;
    }
  }

  /** Appending to the prefix: one more iteration of the loop. */
  lemma CaptionsOfStep(elements: seq<JsonElement>, i: nat)
    requires i < |elements|
    ensures CaptionsOf(elements[..i + 1]) ==
      match CaptionsOf(elements[..i])
      case Failure(e) => Failure(e)
      case Success(captions) =>
        match ElementError(elements[i])
        case Some(e) => Failure(e)
        case None => Success(captions + [EntryOf(elements[i])])
  {
    assert elements[..i + 1][..i] == elements[..i];
  }

  /** `make_captions`: strip the fence, parse, and collect the captions one element at a time. */
  method MakeCaptions(parse: JsonParser, captions: Option<string>) returns (r: Result<seq<CaptionEntry>, CaptionError>)
    ensures r == ParseCaptions(parse, captions)
  {
    if captions.None? {
      return Failure(NoResponseText);
    }
    var captionsText := captions.value;
    if JSON_FENCE <= captionsText {
      captionsText := PySlice(captionsText, 7, -4);
    }
    var captionsList := parse(captionsText);
    if captionsList.None? {
      return Failure(JsonDecodeError);
    }
    if captionsList.value.Scalar? {
      return Failure(NotIterable);
    }
    var elements := captionsList.value.elements;
    var finalCaptions := [];
    for i := 0 to |elements|
      invariant CaptionsOf(elements[..i]) == Success(finalCaptions)
    {
      CaptionsOfStep(elements, i);
      var caption := elements[i];
      if caption.NonObject? {
        FailureStops(elements, i + 1);
        return Failure(NotAnObject);
      }
      if "title" !in caption.fields {
        FailureStops(elements, i + 1);
        return Failure(MissingKey("title"));
      }
      var title := caption.fields["title"];
      if "info" !in caption.fields {
        FailureStops(elements, i + 1);
        return Failure(MissingKey("info"));
      }
      var desc := caption.fields["info"];
      finalCaptions := finalCaptions + [CaptionEntry(title, desc)];
    }
    assert elements[..|elements|] == elements;
    r := Success(finalCaptions);
  }
}
