/**
 * The two service functions of services/geminiService.ts: the request each one builds,
 * the value it selects from the response, and the single message every failure becomes.
 * The SDK calls themselves (`ai.models.generateContent`, `ai.models.generateImages`) are
 * parameters: a function from the request to the response, or to the error it throws.
 */
module GeminiService {
  import opened Common

  const DescribeModel := "gemini-2.5-flash"
  const ImagenModel := "imagen-3.0-generate-002"
  /** The declared type of every inline image, whatever the upload's real type. */
  const InlineMimeType := "image/jpeg"
  const DescribeFailure := "Failed to get image description from API."
  const GenerateFailure := "Failed to generate image from API."
  const NoImagesMessage := "API did not return any images."
  /** The message of the `TypeError` raised by reading `.imageBytes` of a missing `image`. */
  const MissingImageMessage := "Cannot read properties of undefined (reading 'imageBytes')"

  /** `inlineData`; `data` is `None` when the caller passes `undefined`. */
  datatype InlineData = InlineData(mimeType: string, data: Option<string>)
  datatype Part = InlinePart(inlineData: InlineData) | TextPart(text: string)
  datatype ContentRequest = ContentRequest(model: string, parts: seq<Part>)
  datatype ContentResponse = ContentResponse(text: string)

  datatype ImageConfig = ImageConfig(numberOfImages: nat, outputMimeType: string, aspectRatio: string)
  datatype ImagesRequest = ImagesRequest(model: string, prompt: string, config: ImageConfig)
  datatype Image = Image(imageBytes: string)
  datatype GeneratedImage = GeneratedImage(image: Option<Image>)
  datatype ImagesResponse = ImagesResponse(generatedImages: Option<seq<GeneratedImage>>)

  /** The SDK's `generateContent` and `generateImages`, as seen by this module. */
  type ContentCall = ContentRequest -> Result<ContentResponse>
  type ImagesCall = ImagesRequest -> Result<ImagesResponse>

  /** The request `describeImage` sends: an image part, then a text part. */
  function DescribeRequest(base64Image: Option<string>, prompt: string): ContentRequest
  {
    ContentRequest(DescribeModel, [InlinePart(InlineData(InlineMimeType, base64Image)), TextPart(prompt)])
  }

  /**
   * Reads a describe request back into its two arguments; `None` for any request that
   * does not have the describe shape (model, two parts in that order, fixed mime type).
   */
  function ParseDescribeRequest(req: ContentRequest): (r: Option<(Option<string>, string)>)
    ensures r.Some? ==> |req.parts| == 2 && req.model == DescribeModel
  {
    if req.model == DescribeModel && |req.parts| == 2
       && req.parts[0].InlinePart? && req.parts[0].inlineData.mimeType == InlineMimeType
       && req.parts[1].TextPart?
    then Some((req.parts[0].inlineData.data, req.parts[1].text))
    else None
  }

  /** The request carries the image data and the prompt unchanged, each in its own part. */
  lemma DescribeRequestRoundTrip(base64Image: Option<string>, prompt: string)
    ensures ParseDescribeRequest(DescribeRequest(base64Image, prompt)) == Some((base64Image, prompt))
  {
  }

  /** Only the image data and the prompt vary; model, part order and mime type are fixed. */
  lemma DescribeRequestShape(b1: Option<string>, p1: string, b2: Option<string>, p2: string)
    ensures DescribeRequest(b1, p1).model == DescribeRequest(b2, p2).model == DescribeModel
    ensures |DescribeRequest(b1, p1).parts| == 2
    ensures DescribeRequest(b1, p1).parts[0].InlinePart? && DescribeRequest(b1, p1).parts[1].TextPart?
    ensures DescribeRequest(b1, p1).parts[0].inlineData.mimeType
         == DescribeRequest(b2, p2).parts[0].inlineData.mimeType == InlineMimeType
    ensures DescribeRequest(b1, p1) == DescribeRequest(b2, p2) <==> b1 == b2 && p1 == p2
  {
  }

  /** `describeImage`: the response's text, or the one description failure. */
  function DescribeImage(base64Image: Option<string>, prompt: string, generateContent: ContentCall): (r: Result<string>)
    ensures r.Err? ==> r.message == DescribeFailure
    ensures r.Ok? <==> generateContent(DescribeRequest(base64Image, prompt)).Ok?
    ensures r.Ok? ==> r.value == generateContent(DescribeRequest(base64Image, prompt)).value.text
  {
    match generateContent(DescribeRequest(base64Image, prompt))
    case Ok(response) => Ok(response.text)
    case Err(_) => Err(DescribeFailure)
  }

  /** The request `generateImage` sends: one 1:1 PNG from the imagen model. */
  function GenerateRequest(prompt: string): ImagesRequest
  {
    ImagesRequest(ImagenModel, prompt, ImageConfig(1, "image/png", "1:1"))
  }

  /** The prompt is the only part of the request that varies. */
  lemma GenerateRequestFixedConfig(p1: string, p2: string)
    ensures GenerateRequest(p1).prompt == p1
    ensures GenerateRequest(p1).model == GenerateRequest(p2).model == ImagenModel
    ensures GenerateRequest(p1).config == GenerateRequest(p2).config
    ensures GenerateRequest(p1).config.numberOfImages == 1
    ensures GenerateRequest(p1).config.outputMimeType == "image/png"
    ensures GenerateRequest(p1).config.aspectRatio == "1:1"
  {
  }

  /** The body of the `try` after the SDK call: the first image's bytes, or what is thrown. */
  function FirstImageBytes(response: ImagesResponse): (r: Result<string>)
    ensures r.Ok? <==> response.generatedImages.Some? && |response.generatedImages.value| > 0
                       && response.generatedImages.value[0].image.Some?
    ensures r.Ok? ==> r.value == response.generatedImages.value[0].image.value.imageBytes
    ensures (response.generatedImages.None? || response.generatedImages.value == [])
            ==> r == Err(NoImagesMessage)
  {
    match response.generatedImages
    case Some(images) =>
      if |images| > 0 then
        match images[0].image
        case Some(image) => Ok(image.imageBytes)
        case None => Err(MissingImageMessage)
      else Err(NoImagesMessage)
    case None => Err(NoImagesMessage)
  }

  /** Entries after the first never influence the result. */
  lemma FirstImageIgnoresRest(first: GeneratedImage, rest: seq<GeneratedImage>)
    ensures FirstImageBytes(ImagesResponse(Some([first] + rest))) == FirstImageBytes(ImagesResponse(Some([first])))
  {
  }

  /** `generateImage`: the first image's bytes, or the one generation failure. */
  function GenerateImage(prompt: string, generateImages: ImagesCall): (r: Result<string>)
    ensures r.Err? ==> r.message == GenerateFailure
    ensures r.Ok? <==> generateImages(GenerateRequest(prompt)).Ok?
                       && FirstImageBytes(generateImages(GenerateRequest(prompt)).value).Ok?
    ensures r.Ok? ==> r.value == FirstImageBytes(generateImages(GenerateRequest(prompt)).value).value
  {
    match generateImages(GenerateRequest(prompt))
    case Ok(response) =>
      (match FirstImageBytes(response)
       case Ok(bytes) => Ok(bytes)
       case Err(_) => Err(GenerateFailure))
    case Err(_) => Err(GenerateFailure)
  }

  /** The inner "no images" error never reaches the caller: it is replaced by the generation failure. */
  lemma EmptyResponseCollapses(prompt: string, generateImages: ImagesCall)
    requires generateImages(GenerateRequest(prompt)) == Ok(ImagesResponse(Some([])))
             || generateImages(GenerateRequest(prompt)) == Ok(ImagesResponse(None))
    ensures FirstImageBytes(generateImages(GenerateRequest(prompt)).value) == Err(NoImagesMessage)
    ensures GenerateImage(prompt, generateImages) == Err(GenerateFailure)
  {
  }
}
