/** The album-art generator: a prompt, a size choice, the image shown, a
    loading flag and an error banner. A generation is modelled as one atomic
    step from the click to the settled call: while it is pending the button
    is disabled. */
module ImageGeneratorComponent {
  import opened Wrappers
  import opened Types
  import opened JsText
  import opened GeminiService

  const IMAGE_FAILURE_NOTICE := "Failed to generate image. Please try again."

  /** The generator's state hooks. */
  datatype ImageView = ImageView(prompt: string, size: ImageSize, imageSrc: Option<string>, loading: bool, error: Option<string>)

  /** `handleGenerate`, with `response` standing for how the SDK call settled. */
  function Generate(v: ImageView, response: Outcome<ImageResponse>): (r: ImageView)
    // a blank prompt changes nothing and calls nothing
    ensures Blank(v.prompt) ==> r == v
    // otherwise the prompt and size stay, loading is over, and exactly one
    // of image and error is shown, depending on how the call settled
    ensures !Blank(v.prompt) ==>
      r.prompt == v.prompt && r.size == v.size && !r.loading
      && (ImageOutcome(response).Success? ==> r.imageSrc == Some(ImageOutcome(response).value) && r.error == None)
      && (ImageOutcome(response).Failure? ==> r.imageSrc == None && r.error == Some(IMAGE_FAILURE_NOTICE))
  {
    if Blank(v.prompt) then v
    else match ImageOutcome(response)
      case Success(uri) => v.(loading := false, imageSrc := Some(uri), error := None)
      case Failure(_) => v.(loading := false, imageSrc := None, error := Some(IMAGE_FAILURE_NOTICE))
  }

  /** The generate button's rule: `!(loading || !prompt)`. Unlike the
      handler's guard it does not trim. */
  predicate GenerateEnabled(v: ImageView)
    // every prompt the handler acts on enables the button when idle
    ensures !v.loading && !Blank(v.prompt) ==> GenerateEnabled(v)
    // the button is never enabled during a call, nor for an empty prompt
    ensures GenerateEnabled(v) ==> !v.loading && |v.prompt| > 0
  {
    !v.loading && v.prompt != ""
  }

  /** What the screen may show: never an image and an error together, and an
      image only as a PNG data URI. */
  predicate Consistent(v: ImageView) {
    v.imageSrc.Some? ==>
      && v.error.None?
      && |v.imageSrc.value| >= |PNG_DATA_URI_PREFIX|
      && v.imageSrc.value[..|PNG_DATA_URI_PREFIX|] == PNG_DATA_URI_PREFIX
  }

  /** Every generation keeps the screen consistent. */
  lemma GenerateKeepsConsistent(v: ImageView, response: Outcome<ImageResponse>)
    requires Consistent(v)
    ensures Consistent(Generate(v, response))
  {
  }

  /** A non-blank generation does not depend on what was shown before: a
      failure never leaves an earlier image on screen. */
  lemma NoStaleImage(v: ImageView, w: ImageView, response: Outcome<ImageResponse>)
    requires !Blank(v.prompt) && w.prompt == v.prompt && w.size == v.size
    ensures Generate(v, response) == Generate(w, response)
  {
  }

  /** A response with no inline image part, in whatever shape, shows the
      error and no image. */
  lemma NoImagePartShowsError(v: ImageView, response: ImageResponse)
    requires !Blank(v.prompt)
    requires forall j :: 0 <= j < |ResponseParts(response)| ==> ResponseParts(response)[j].inlineData.None?
    ensures Generate(v, Returned(response)).imageSrc == None
    ensures Generate(v, Returned(response)).error == Some(IMAGE_FAILURE_NOTICE)
  {
  }

  /** A non-empty prompt of whitespace only enables the button, yet clicking
      it does nothing. */
  lemma WhitespacePromptEnablesButIgnored(v: ImageView, response: Outcome<ImageResponse>)
    requires v.prompt != "" && Blank(v.prompt) && !v.loading
    ensures GenerateEnabled(v) && Generate(v, response) == v
  {
  }

  /** The generator. */
  class ImageGenerator {
    var prompt: string
    var size: ImageSize
    var imageSrc: Option<string>
    var loading: bool
    var error: Option<string>

    /** Mounting: an empty prompt, size 1K, nothing shown. */
    constructor ()
      ensures View() == ImageView("", Size1K, None, false, None)
    {
      prompt := "";
      size := Size1K;
      imageSrc := None;
      loading := false;
      error := None;
    }

    function View(): ImageView
      reads this
    {
      ImageView(prompt, size, imageSrc, loading, error)
    }

    /** The prompt text area's `onChange`. */
    method SetPrompt(text: string)
      modifies this
      ensures View() == old(View()).(prompt := text)
    {
      prompt := text;
    }

    /** One of the three size buttons; `ImageSize` has no other value. */
    method SetSize(s: ImageSize)
      modifies this
      ensures View() == old(View()).(size := s)
    {
      size := s;
    }

    /** `handleGenerate`. `request` is the request sent to the SDK, if any. */
    method HandleGenerate(response: Outcome<ImageResponse>) returns (request: Option<ImageRequest>)
      modifies this
      ensures View() == Generate(old(View()), response)
      ensures request.Some? <==> !Blank(old(prompt))
      ensures request.Some? ==> request.value == ImageRequest(IMAGE_MODEL, [old(prompt)], old(size), SQUARE)
    {
      if Blank(prompt) {
        return None;
      }
      loading := true;
      error := None;
      imageSrc := None;
      var sent, result := GenerateMusicImage(prompt, size, response);
      request := Some(sent);
      match result {
        case Success(uri) =>
          imageSrc := Some(uri);
        case Failure(_) =>
          error := Some(IMAGE_FAILURE_NOTICE);
      }
      loading := false;
    }
  }
}
