/**
 * The session controller of App.tsx: five state fields, the upload and submit commands
 * that change them, and the condition that enables the submit button.
 *
 * `Submit` is the submit pipeline as a function of the state before the click and of what
 * the three asynchronous steps (reading the file, describing it, generating the new image)
 * return. `Editor.HandleSubmit` performs it step by step on the fields and is proved to end
 * in the state `Submit` gives. The steps are recorded as `Await`s, in the order they are
 * awaited, each with the state shown while it is pending.
 */
module App {
  import opened Common
  import opened GeminiService
  import opened Envelope
  import ImageUploader

  const ValidationMessage := "Please upload an image and provide an editing prompt."
  const PipelineFailure := "Failed to generate image. Please check your API key and try again."
  const DescriptionPrompt := "Describe this image in vivid detail for an AI image generator. Focus on the subject, setting, composition, colors, lighting, and overall mood. Be descriptive and evocative."

  /** The fixed text of the generation prompt, around the description and the user's direction. */
  const TemplateLead := "A stunning, high-resolution photograph based on this description: \""
  const TemplateMiddle := "\". Now, apply this creative direction: \""
  // Kept as two literals: the verifier cannot see the first character of this one written whole.
  const TemplateTail := "\". Combine them to create " + "a new, masterpiece image."

  /** The five state fields, as one value. */
  datatype Session = Session(
    originalImageFile: Option<File>,
    prompt: string,
    generatedImage: Option<string>,
    isLoading: bool,
    error: Option<string>)

  /** The state before any interaction: every `useState` initial value. */
  const InitialSession := Session(None, "", None, false, None)

  /** The outside world of one run: the `FileReader` read as a data URL, and the two SDK calls. */
  datatype Services = Services(
    readAsDataUrl: File -> Result<string>,
    generateContent: ContentCall,
    generateImages: ImagesCall)

  /** A step awaited by the pipeline, with its arguments. */
  datatype Stage =
    | Encode(file: File)
    | Describe(base64Image: Option<string>, descriptionPrompt: string)
    | Generate(generationPrompt: string)

  /** A step awaited, and the state shown while it is pending. */
  datatype Await = Await(stage: Stage, shown: Session)

  /** What one click on submit does: the steps awaited, in order, and the state it ends in. */
  datatype Run = Run(awaits: seq<Await>, final: Session)

  // ---------------------------------------------------------------- generation prompt

  /** The template literal that combines the description with the user's creative direction. */
  function GenerationPrompt(description: string, direction: string): string
  {
    TemplateLead + description + TemplateMiddle + direction + TemplateTail
  }

  /** `inner` appears in `outer` between double quotes, opening at index `i`. */
  predicate QuotedAt(outer: string, inner: string, i: int)
  {
    0 <= i && i + |inner| + 2 <= |outer|
    && outer[i] == '"' && outer[i + 1 .. i + 1 + |inner|] == inner && outer[i + 1 + |inner|] == '"'
  }

  /** A string placed between a piece ending in a quote and a piece starting with one is quoted. */
  lemma QuotedBetween(before: string, inner: string, after: string)
    requires |before| > 0 && before[|before| - 1] == '"'
    requires |after| > 0 && after[0] == '"'
    ensures QuotedAt(before + inner + after, inner, |before| - 1)
  {
  }

  /** Both inputs appear verbatim and quoted, after the fixed lead and before the fixed tail. */
  lemma GenerationPromptQuotesBoth(description: string, direction: string)
    ensures var r := GenerationPrompt(description, direction);
            TemplateLead <= r
            && r[|r| - |TemplateTail| ..] == TemplateTail
            && QuotedAt(r, description, |TemplateLead| - 1)
            && QuotedAt(r, direction, |TemplateLead| + |description| + |TemplateMiddle| - 1)
  {
    var r := GenerationPrompt(description, direction);
    var rest := TemplateMiddle + direction + TemplateTail;
    var upTo := TemplateLead + description + TemplateMiddle;
    assert r == TemplateLead + description + rest;
    assert r == upTo + direction + TemplateTail;
    assert TemplateLead[|TemplateLead| - 1] == '"';
    assert rest[0] == TemplateMiddle[0] == '"';
    assert upTo[|upTo| - 1] == TemplateMiddle[|TemplateMiddle| - 1] == '"';
    assert TemplateTail[0] == '"';
    QuotedBetween(TemplateLead, description, rest);
    QuotedBetween(upTo, direction, TemplateTail);
    assert r[..|TemplateLead|] == TemplateLead;
    assert r[|r| - |TemplateTail| ..] == TemplateTail;
  }

  /** Different directions under one description give different prompts. */
  lemma GenerationPromptKeepsDirection(description: string, d1: string, d2: string)
    requires GenerationPrompt(description, d1) == GenerationPrompt(description, d2)
    ensures d1 == d2
  {
    var r1, r2 := GenerationPrompt(description, d1), GenerationPrompt(description, d2);
    var m := |TemplateLead| + |description| + |TemplateMiddle|;
    assert |d1| == |r1| - m - |TemplateTail| == |d2|;
    assert r1[m .. m + |d1|] == d1;
    assert r2[m .. m + |d2|] == d2;
  }

  /** Different descriptions under one direction give different prompts. */
  lemma GenerationPromptKeepsDescription(d1: string, d2: string, direction: string)
    requires GenerationPrompt(d1, direction) == GenerationPrompt(d2, direction)
    ensures d1 == d2
  {
    var r1, r2 := GenerationPrompt(d1, direction), GenerationPrompt(d2, direction);
    var l := |TemplateLead|;
    assert |d1| == |r1| - l - |TemplateMiddle| - |direction| - |TemplateTail| == |d2|;
    assert r1[l .. l + |d1|] == d1;
    assert r2[l .. l + |d2|] == d2;
  }

  // ---------------------------------------------------------------- the submit pipeline

  /** The guard at the head of `handleSubmit`: a file is present and the prompt is not the empty string. */
  predicate GuardPasses(s: Session)
  {
    s.originalImageFile.Some? && s.prompt != ""
  }

  /** The submit button is enabled (`disabled={isLoading || !originalImageFile || !prompt}` is false). */
  predicate ButtonEnabled(s: Session)
  {
    !(s.isLoading || s.originalImageFile.None? || s.prompt == "")
  }

  /** The state shown while an accepted submission is pending. */
  function Running(s: Session): (t: Session)
    ensures t.isLoading && t.error.None? && t.generatedImage.None?
    ensures t.originalImageFile == s.originalImageFile && t.prompt == s.prompt
  {
    s.(isLoading := true, error := None, generatedImage := None)
  }

  /** The state after the `catch` and the `finally` of a failed run. */
  function Failed(s: Session): Session
  {
    s.(error := Some(PipelineFailure), isLoading := false)
  }

  /** One click on submit, from state `s`, with the outside world answering as `env` does. */
  function Submit(s: Session, env: Services): Run
  {
    if !GuardPasses(s) then
      Run([], s.(error := Some(ValidationMessage)))
    else
      var running := Running(s);
      var file := s.originalImageFile.value;
      var awaits1 := [Await(Encode(file), running)];
      match env.readAsDataUrl(file)
      case Err(_) => Run(awaits1, Failed(running))
      case Ok(dataUrl) =>
        var imageData := StripEnvelope(dataUrl);
        var awaits2 := awaits1 + [Await(Describe(imageData, DescriptionPrompt), running)];
        match DescribeImage(imageData, DescriptionPrompt, env.generateContent)
        case Err(_) => Run(awaits2, Failed(running))
        case Ok(description) =>
          var generationPrompt := GenerationPrompt(description, s.prompt);
          var awaits3 := awaits2 + [Await(Generate(generationPrompt), running)];
          match GenerateImage(generationPrompt, env.generateImages)
          case Err(_) => Run(awaits3, Failed(running))
          case Ok(bytes) => Run(awaits3, running.(generatedImage := Some(PngImageSource(bytes)), isLoading := false))
  }

  /**
   * A rejected submission (no file, or the prompt is exactly "") awaits nothing and changes
   * only `error`; any other prompt, even one of blanks, passes the guard.
   */
  lemma GuardRejects(s: Session, env: Services)
    ensures !GuardPasses(s) <==> s.originalImageFile.None? || s.prompt == ""
    ensures !GuardPasses(s) ==> Submit(s, env).awaits == []
                                && Submit(s, env).final == s.(error := Some(ValidationMessage))
    ensures GuardPasses(s) ==> |Submit(s, env).awaits| >= 1
  {
  }

  /** A prompt made only of blanks is not rejected: the file is read. */
  lemma BlankPromptPasses(s: Session, env: Services)
    requires s.originalImageFile.Some? && s.prompt != ""
    requires forall i | 0 <= i < |s.prompt| :: s.prompt[i] == ' '
    ensures Submit(s, env).awaits != []
    ensures Submit(s, env).awaits[0].stage == Encode(s.originalImageFile.value)
  {
  }

  /** An accepted submission shows the loading state while every step is pending, and never ends loading. */
  lemma AcceptedRunShowsLoadingThenClears(s: Session, env: Services)
    requires GuardPasses(s)
    ensures forall a | a in Submit(s, env).awaits :: a.shown == Running(s)
    ensures !Submit(s, env).final.isLoading
    ensures Submit(s, env).final.originalImageFile == s.originalImageFile
    ensures Submit(s, env).final.prompt == s.prompt
  {
  }

  /**
   * Success: when the read, the description and the generation all succeed, the displayed
   * image is the generated bytes in a PNG data URI and no error is shown; an image is shown
   * only after all three succeeded.
   */
  lemma SuccessShowsImage(s: Session, env: Services, dataUrl: string, description: string, bytes: string)
    requires GuardPasses(s)
    requires env.readAsDataUrl(s.originalImageFile.value) == Ok(dataUrl)
    requires DescribeImage(StripEnvelope(dataUrl), DescriptionPrompt, env.generateContent) == Ok(description)
    requires GenerateImage(GenerationPrompt(description, s.prompt), env.generateImages) == Ok(bytes)
    ensures Submit(s, env).final.generatedImage == Some("data:image/png;base64," + bytes)
    ensures Submit(s, env).final.error.None?
  {
  }

  /** After an accepted click, an image is shown only when all three steps succeeded. */
  lemma ImageOnlyAfterAllSteps(s: Session, env: Services)
    requires GuardPasses(s)
    ensures var read := env.readAsDataUrl(s.originalImageFile.value);
            Submit(s, env).final.generatedImage.Some? ==>
              read.Ok?
              && DescribeImage(StripEnvelope(read.value), DescriptionPrompt, env.generateContent).Ok?
              && GenerateImage(GenerationPrompt(
                   DescribeImage(StripEnvelope(read.value), DescriptionPrompt, env.generateContent).value, s.prompt),
                   env.generateImages).Ok?
  {
  }

  /** Failure of any step: the one pipeline message, and no image. */
  lemma FailureShowsMessage(s: Session, env: Services)
    requires GuardPasses(s)
    ensures var read := env.readAsDataUrl(s.originalImageFile.value);
            var described := if read.Ok?
                             then DescribeImage(StripEnvelope(read.value), DescriptionPrompt, env.generateContent)
                             else Err(DescribeFailure);
            (read.Err?
             || described.Err?
             || GenerateImage(GenerationPrompt(described.value, s.prompt), env.generateImages).Err?)
            ==> Submit(s, env).final.error == Some(PipelineFailure)
                && Submit(s, env).final.generatedImage.None?
  {
  }

  /**
   * The steps are awaited in the fixed order encode, describe, generate, and a step is
   * awaited only after the one before it succeeded: a failed step stops the run.
   */
  lemma StepsShortCircuit(s: Session, env: Services)
    requires GuardPasses(s)
    ensures var awaits := Submit(s, env).awaits;
            var file := s.originalImageFile.value;
            1 <= |awaits| <= 3
            && awaits[0].stage == Encode(file)
            && (|awaits| >= 2 <==> env.readAsDataUrl(file).Ok?)
            && (|awaits| >= 2 ==>
                  var imageData := StripEnvelope(env.readAsDataUrl(file).value);
                  awaits[1].stage == Describe(imageData, DescriptionPrompt)
                  && (|awaits| == 3 <==> DescribeImage(imageData, DescriptionPrompt, env.generateContent).Ok?)
                  && (|awaits| == 3 ==>
                        awaits[2].stage == Generate(GenerationPrompt(
                          DescribeImage(imageData, DescriptionPrompt, env.generateContent).value, s.prompt))))
  {
  }

  /** When the description fails, generation is never awaited. */
  lemma DescribeFailureSkipsGenerate(s: Session, env: Services)
    requires GuardPasses(s) && env.readAsDataUrl(s.originalImageFile.value).Ok?
    requires env.generateContent(DescribeRequest(
               StripEnvelope(env.readAsDataUrl(s.originalImageFile.value).value), DescriptionPrompt)).Err?
    ensures forall a | a in Submit(s, env).awaits :: !a.stage.Generate?
    ensures Submit(s, env).final.error == Some(PipelineFailure)
  {
  }

  /** The submit button is enabled exactly when the state is not loading and the guard passes. */
  lemma ButtonEnabledMeansGuardPasses(s: Session)
    ensures ButtonEnabled(s) <==> !s.isLoading && GuardPasses(s)
  {
  }

  // ---------------------------------------------------------------- the state invariant

  /** `handleImageUpload`: store the file (or `null`) and clear the output, nothing else. */
  function Upload(s: Session, file: Option<File>): Session
  {
    s.(originalImageFile := file, generatedImage := None)
  }

  /**
   * The state between user actions: nothing loading, and a displayed image is a PNG data
   * URI shown without an error beside it.
   */
  predicate AtRest(s: Session)
  {
    !s.isLoading && (s.generatedImage.Some? ==> s.error.None? && PngEnvelope <= s.generatedImage.value)
  }

  /** The page starts at rest. */
  lemma InitialAtRest()
    ensures AtRest(InitialSession)
  {
  }

  /** Every action the page offers keeps the state at rest: upload, typing, and a click on an enabled button. */
  lemma ActionsKeepAtRest(s: Session, file: Option<File>, text: string, env: Services)
    requires AtRest(s)
    ensures AtRest(Upload(s, file))
    ensures AtRest(s.(prompt := text))
    ensures ButtonEnabled(s) ==> AtRest(Submit(s, env).final)
  {
  }

  /** The guard, by itself, does not keep it: a rejected click beside a shown image shows an error too. */
  lemma RejectedClickBesideImage(env: Services)
    ensures var s := InitialSession.(generatedImage := Some(PngEnvelope + "AAAA"));
            AtRest(s) && !ButtonEnabled(s) && !AtRest(Submit(s, env).final)
  {
  }

  /** Uploading clears the generated image without a loading phase, and keeps an earlier error. */
  lemma UploadClearsOutputOnly(s: Session, file: Option<File>)
    ensures Upload(s, file).originalImageFile == file && Upload(s, file).generatedImage.None?
    ensures Upload(s, file).prompt == s.prompt && Upload(s, file).isLoading == s.isLoading
    ensures Upload(s, file).error == s.error
  {
  }

  /**
   * Wired to the upload widget, the session only ever holds no file or a file whose type
   * starts with `image/`: a refused file clears the selection instead of being stored.
   */
  lemma UploadedFileIsImage(s: Session, files: Option<seq<File>>)
    requires ImageUploader.FilesCallback(files).Called?
    ensures var held := Upload(s, ImageUploader.FilesCallback(files).arg).originalImageFile;
            held.Some? ==> held == ImageUploader.FirstFile(files) && "image/" <= held.value.mimeType
    ensures var held := Upload(s, ImageUploader.FilesCallback(files).arg).originalImageFile;
            held.None? <==> !ImageUploader.Accepts(ImageUploader.FirstFile(files))
  {
  }

  // ---------------------------------------------------------------- the component

  /** The `App` component's state, changed in place by its handlers. */
  class Editor {
    var originalImageFile: Option<File>
    var prompt: string
    var generatedImage: Option<string>
    var isLoading: bool
    var error: Option<string>

    /** The fields as one value. */
    function State(): Session
      reads this
    {
      Session(originalImageFile, prompt, generatedImage, isLoading, error)
    }

    constructor ()
      ensures State() == InitialSession
    {
      originalImageFile, prompt, generatedImage, isLoading, error := None, "", None, false, None;
    }

    /** The button's enabled state. */
    function SubmitEnabled(): (enabled: bool)
      reads this
      ensures enabled == ButtonEnabled(State())
    ensures enabled ==> GuardPasses(State())
    {
      !(isLoading || originalImageFile.None? || prompt == "")
    }

    /** The textarea's `onChange`. */
    method SetPrompt(text: string)
      modifies this
      ensures State() == old(State()).(prompt := text)
    {
      prompt := text;
    }

    /** `handleImageUpload`. */
    method HandleImageUpload(file: Option<File>)
      modifies this
      ensures State() == Upload(old(State()), file)
    {
      originalImageFile := file;
      generatedImage := None;
    }

    /** `handleSubmit`, run to completion; returns the steps it awaited. */
    method HandleSubmit(env: Services) returns (awaits: seq<Await>)
      modifies this
      ensures awaits == Submit(old(State()), env).awaits
      ensures State() == Submit(old(State()), env).final
    {
      if originalImageFile.None? || prompt == "" {
        error := Some(ValidationMessage);
        return [];
      }

      isLoading := true;
      error := None;
      generatedImage := None;

      var file := originalImageFile.value;
      var shown := State();
      awaits := [Await(Encode(file), shown)];
      var encoded := env.readAsDataUrl(file);
      if encoded.Ok? {
        var imageDataForApi := StripEnvelope(encoded.value);
        awaits := awaits + [Await(Describe(imageDataForApi, DescriptionPrompt), shown)];
        var description := DescribeImage(imageDataForApi, DescriptionPrompt, env.generateContent);
        if description.Ok? {
          var finalGenerationPrompt := GenerationPrompt(description.value, prompt);
          awaits := awaits + [Await(Generate(finalGenerationPrompt), shown)];
          var newImage := GenerateImage(finalGenerationPrompt, env.generateImages);
          if newImage.Ok? {
            generatedImage := Some(PngImageSource(newImage.value));
          } else {
            error := Some(PipelineFailure);
          }
        } else {
          error := Some(PipelineFailure);
        }
      } else {
        error := Some(PipelineFailure);
      }

      // finally
      isLoading := false;
    }
  }

  // ---------------------------------------------------------------- a worked run

  /**
   * A run end to end: a PNG upload read as `data:image/png;base64,<payload>`, the direction
   * "vintage polaroid", a description "a red bicycle on a beach" and a generated "AAAA".
   * The describe step receives exactly the payload, and the page ends showing
   * `data:image/png;base64,AAAA`.
   */
  lemma WorkedExample(photo: File, payload: string, env: Services)
    requires photo.mimeType == "image/png" && ',' !in payload
    requires env.readAsDataUrl(photo) == Ok("data:" + photo.mimeType + ";base64," + payload)
    requires env.generateContent(DescribeRequest(Some(payload), DescriptionPrompt))
             == Ok(ContentResponse("a red bicycle on a beach"))
    requires env.generateImages(GenerateRequest(GenerationPrompt("a red bicycle on a beach", "vintage polaroid")))
             == Ok(ImagesResponse(Some([GeneratedImage(Some(Image("AAAA")))])))
    ensures var s := InitialSession.(originalImageFile := Some(photo), prompt := "vintage polaroid");
            Submit(s, env).awaits == [
              Await(Encode(photo), Running(s)),
              Await(Describe(Some(payload), DescriptionPrompt), Running(s)),
              Await(Generate(GenerationPrompt("a red bicycle on a beach", "vintage polaroid")), Running(s))]
            && Submit(s, env).final == s.(generatedImage := Some("data:image/png;base64,AAAA"))
  {
    StripEnvelopeOfDataUrl(photo.mimeType, payload);
    assert GenerateImage(GenerationPrompt("a red bicycle on a beach", "vintage polaroid"), env.generateImages) == Ok("AAAA") by {
      assert FirstImageBytes(ImagesResponse(Some([GeneratedImage(Some(Image("AAAA")))]))) == Ok("AAAA");
    }
    assert PngImageSource("AAAA") == "data:image/png;base64,AAAA";
  }
}
