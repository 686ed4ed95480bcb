/**
 * The tools' input and output records, the error kinds they report, the
 * per-tool default table and the required-field checks.
 */
module Tools {
  import opened Wrappers

  /** Errors a tool call returns to its caller. */
  datatype ToolError =
    | InvalidArgument(message: string)
    | FileError(message: string)
    | RemoteError(message: string)
    | EmptyResult(message: string)

  datatype GeminiImageGenerationInput = GeminiImageGenerationInput(
    prompt: string, model: string, style: string, aspectRatio: string, quality: string,
    safetyLevel: string, language: string, includeText: bool, tags: seq<string>,
    outputDirectory: string)

  datatype GeminiImageGenerationOutput = GeminiImageGenerationOutput(
    description: string, model: string, style: string, aspectRatio: string, quality: string,
    language: string, tags: seq<string>, savedFiles: seq<string>, metadata: map<string, string>,
    generatedAt: string, imagesCreated: nat)

  datatype GeminiImageEditInput = GeminiImageEditInput(
    inputImagePath: string, editPrompt: string, model: string, preserveStyle: bool,
    editType: string, maskArea: string, outputDirectory: string)

  datatype GeminiImageEditOutput = GeminiImageEditOutput(
    originalImage: string, editedImage: string, editType: string, model: string,
    savedFiles: seq<string>, metadata: map<string, string>, generatedAt: string)

  datatype GeminiMultiImageInput = GeminiMultiImageInput(
    inputImagePaths: seq<string>, combinePrompt: string, model: string, blendMode: string,
    outputStyle: string, outputDirectory: string)

  datatype GeminiMultiImageOutput = GeminiMultiImageOutput(
    inputImages: seq<string>, combinedImage: string, blendMode: string, model: string,
    savedFiles: seq<string>, metadata: map<string, string>, generatedAt: string,
    imagesProcessed: nat)

  datatype ImagenGenerationInput = ImagenGenerationInput(
    prompt: string, model: string, numImages: int, aspectRatio: string, outputDirectory: string)

  datatype ImagenGenerationOutput = ImagenGenerationOutput(
    imagesGenerated: nat, model: string, savedFiles: seq<string>)

  /** The input of the three video tools; text-to-video has no image path and ignores it. */
  datatype VeoInput = VeoInput(
    prompt: string, negativePrompt: string, aspectRatio: string, resolution: string,
    model: string, imagePath: string, seed: int, outputDirectory: string)

  datatype VeoGenerationOutput = VeoGenerationOutput(
    operationId: string, status: string, videoUrl: string, savedFiles: seq<string>,
    model: string, aspectRatio: string, resolution: string, metadata: map<string, string>,
    generatedAt: string, estimatedLength: string)

  // The default table.
  const DefaultGeminiModel := "gemini-2.5-flash-image-preview"
  const DefaultStyle := "photorealistic"
  const DefaultQuality := "high"
  const DefaultLanguage := "en"
  const DefaultEditType := "modify"
  const DefaultBlendMode := "merge"
  const DefaultImagenModel := "imagen-4.0-generate-001"
  const DefaultImagenAspectRatio := "1:1"
  const DefaultVideoAspectRatio := "16:9"
  const DefaultResolution := "720p"
  const DefaultVeoModel := "veo-3.0-generate-001"
  const EstimatedVideoLength := "8 seconds"

  /** An optional string field: the caller's value when non-empty, otherwise the default. */
  function OrDefault(value: string, default: string): string
  {
    if value == "" then default else value
  }

  /** `value` is the effective setting for a field given as `given` with default `default`. */
  predicate Defaulted(value: string, given: string, default: string)
  {
    (given == "" ==> value == default) && (given != "" ==> value == given)
  }

  /** `num_images`: zero (omitted) becomes one; any other value passes through. */
  function ImageCount(requested: int): (n: int)
    ensures requested == 0 ==> n == 1
    ensures requested != 0 ==> n == requested
  {
    if requested == 0 then 1 else requested
  }

  /** Image generation and video: the prompt is the one required field. */
  function CheckPrompt(prompt: string): (r: Option<ToolError>)
    ensures r.None? <==> prompt != ""
    ensures r.Some? ==> r.value == InvalidArgument("prompt is required")
  {
    if prompt == "" then Some(InvalidArgument("prompt is required")) else None
  }

  /** Edit: the image path is checked before the edit prompt. */
  function CheckEdit(input: GeminiImageEditInput): (r: Option<ToolError>)
    ensures r.None? <==> input.inputImagePath != "" && input.editPrompt != ""
    ensures input.inputImagePath == "" ==> r == Some(InvalidArgument("input_image_path is required"))
    ensures input.inputImagePath != "" && input.editPrompt == "" ==>
      r == Some(InvalidArgument("edit_prompt is required"))
  {
    if input.inputImagePath == "" then Some(InvalidArgument("input_image_path is required"))
    else if input.editPrompt == "" then Some(InvalidArgument("edit_prompt is required"))
    else None
  }

  /** Multi-image: two or three paths, then a combine prompt. */
  function CheckMultiImage(input: GeminiMultiImageInput): (r: Option<ToolError>)
    ensures r.None? <==> 2 <= |input.inputImagePaths| <= 3 && input.combinePrompt != ""
    ensures |input.inputImagePaths| < 2 ==>
      r == Some(InvalidArgument("at least 2 input images are required"))
    ensures |input.inputImagePaths| > 3 ==>
      r == Some(InvalidArgument("maximum 3 input images supported"))
    ensures 2 <= |input.inputImagePaths| <= 3 && input.combinePrompt == "" ==>
      r == Some(InvalidArgument("combine_prompt is required"))
  {
    if |input.inputImagePaths| < 2 then Some(InvalidArgument("at least 2 input images are required"))
    else if |input.inputImagePaths| > 3 then Some(InvalidArgument("maximum 3 input images supported"))
    else if input.combinePrompt == "" then Some(InvalidArgument("combine_prompt is required"))
    else None
  }

  /**
   * Image-to-video: the image path, then the prompt, then whether the image
   * file exists (`imageExists` is the outcome of the file-system check).
   */
  function CheckImageToVideo(input: VeoInput, imageExists: bool): (r: Option<ToolError>)
    ensures r.None? <==> input.imagePath != "" && input.prompt != "" && imageExists
    ensures input.imagePath == "" ==> r == Some(InvalidArgument("image_path is required"))
    ensures input.imagePath != "" && input.prompt == "" ==> r == Some(InvalidArgument("prompt is required"))
    ensures input.imagePath != "" && input.prompt != "" && !imageExists ==>
      r == Some(FileError("image file not found: " + input.imagePath))
  {
    if input.imagePath == "" then Some(InvalidArgument("image_path is required"))
    else if input.prompt == "" then Some(InvalidArgument("prompt is required"))
    else if !imageExists then Some(FileError("image file not found: " + input.imagePath))
    else None
  }

  /** The 32-bit conversion applied to the image count before it is sent. */
  function ToInt32(n: int): (r: int)
    ensures -0x8000_0000 <= r < 0x8000_0000
    ensures (r - n) % 0x1_0000_0000 == 0
    ensures -0x8000_0000 <= n < 0x8000_0000 ==> r == n
  {
    (n + 0x8000_0000) % 0x1_0000_0000 - 0x8000_0000
  }
}
