/**
 * The four image tools: Gemini image generation, edit and multi-image combine,
 * and Imagen text-to-image. Each validates its input before anything is sent,
 * fills in defaults, assembles its prompt, and records the files it wrote.
 * `sent` is the request handed to the remote client (None when the call is
 * rejected first); the client's answer, file reads and writes are parameters.
 */
module ImageHandlers {
  import opened Wrappers
  import opened Genai
  import opened Text
  import opened Tools
  import opened Prompts
  import opened Artifacts
  import CommonConfig

  const DefaultDescription := "Image generated successfully"

  /** The description: the last non-empty text fragment, or a fixed sentence when there is none. */
  function Description(texts: seq<string>): (d: string)
    ensures d != ""
    ensures Last(texts) != "" ==> d == Last(texts)
    ensures Last(texts) == "" ==> d == DefaultDescription
  {
    if Last(texts) == "" then DefaultDescription else Last(texts)
  }

  /** `gemini_metadata_<timestamp>.json` */
  function GeminiMetadataName(timestamp: string): string
  {
    "gemini_metadata_" + timestamp + ".json"
  }

  /** The metadata sidecar is recorded only for a requested directory and a successful write. */
  function MetadataSaved(requestedDir: string, timestamp: string, written: bool): (saved: seq<string>)
    ensures |saved| <= 1
    ensures saved != [] <==> requestedDir != "" && written
    ensures saved != [] ==> saved[0] == PathJoin(requestedDir, GeminiMetadataName(timestamp))
  {
    if requestedDir != "" && written then [PathJoin(requestedDir, GeminiMetadataName(timestamp))] else []
  }

  /** Gemini image generation. */
  method HandleGeminiImageGeneration(config: CommonConfig.Config, input: GeminiImageGenerationInput,
                                     response: Result<seq<Candidate>, string>, timestamp: string,
                                     imageWrites: seq<bool>, metadataWritten: bool)
    returns (r: Result<GeminiImageGenerationOutput, ToolError>, sent: Option<ContentRequest>)
    ensures input.prompt == "" ==> r == Err(InvalidArgument("prompt is required")) && sent.None?
    ensures input.prompt != "" ==> (sent.Some? && sent.value.images == []
      && Defaulted(sent.value.model, input.model, "gemini-2.5-flash-image-preview")
      && sent.value.prompt == Join(ImageClauses(input.prompt, OrDefault(input.style, "photorealistic"),
                                                input.aspectRatio, input.includeText,
                                                OrDefault(input.quality, "high")), ". "))
    ensures r.Ok? <==> input.prompt != "" && response.Ok? && response.value != []
    ensures input.prompt != "" && response.Err? ==>
      r == Err(RemoteError("error generating content: " + response.error))
    ensures input.prompt != "" && response == Ok([]) ==> r == Err(EmptyResult("no content was generated"))
    ensures r.Ok? ==> (sent.Some? && r.value.model == sent.value.model
      && Defaulted(r.value.style, input.style, "photorealistic")
      && Defaulted(r.value.quality, input.quality, "high")
      && Defaulted(r.value.language, input.language, "en")
      && r.value.aspectRatio == input.aspectRatio && r.value.tags == input.tags
      && r.value.generatedAt == timestamp)
    ensures r.Ok? ==> r.value.imagesCreated == |Slots(response.value)|
    ensures r.Ok? ==> (r.value.savedFiles
      == SavedImages(ImageOutputDir(input.outputDirectory, config.outputDir), "gemini_generated",
                     r.value.style, timestamp, Slots(response.value), imageWrites)
         + MetadataSaved(input.outputDirectory, timestamp, metadataWritten))
    ensures r.Ok? ==> r.value.description == Description(Texts(response.value))
    ensures r.Ok? ==> r.value.metadata == map[
      "original_prompt" := input.prompt, "enhanced_prompt" := sent.value.prompt,
      "quality" := r.value.quality, "safety_level" := input.safetyLevel]
  {
    var invalid := CheckPrompt(input.prompt);
    if invalid.Some? {
      return Err(invalid.value), None;
    }
    var model := OrDefault(input.model, DefaultGeminiModel);
    var style := OrDefault(input.style, DefaultStyle);
    var quality := OrDefault(input.quality, DefaultQuality);
    var language := OrDefault(input.language, DefaultLanguage);

    var parts := BuildImagePrompt(input.prompt, style, input.aspectRatio, input.includeText, quality);
    var promptText := Join(parts, Separator);
    sent := Some(ContentRequest(model, promptText, []));

    if response.Err? {
      return Err(RemoteError("error generating content: " + response.error)), sent;
    }
    var candidates := response.value;
    if candidates == [] {
      return Err(EmptyResult("no content was generated")), sent;
    }

    var outputDir := ImageOutputDir(input.outputDirectory, config.outputDir);
    var imagesCreated, savedFiles, _, resultText :=
      SaveResponseImages(candidates, outputDir, "gemini_generated", style, timestamp, imageWrites);
    if resultText == "" {
      resultText := DefaultDescription;
    }
    var metadata := map[
      "original_prompt" := input.prompt, "enhanced_prompt" := promptText,
      "quality" := quality, "safety_level" := input.safetyLevel];
    savedFiles := savedFiles + MetadataSaved(input.outputDirectory, timestamp, metadataWritten);
    r := Ok(GeminiImageGenerationOutput(
      description := resultText, model := model, style := style, aspectRatio := input.aspectRatio,
      quality := quality, language := language, tags := input.tags, savedFiles := savedFiles,
      metadata := metadata, generatedAt := timestamp, imagesCreated := imagesCreated));
  }

  /** Go's `%t`. */
  function BoolString(b: bool): string
  {
    if b then "true" else "false"
  }

  /** Gemini image edit. `readError` is the outcome of reading the input image. */
  method HandleGeminiImageEdit(config: CommonConfig.Config, input: GeminiImageEditInput,
                               readError: Option<string>, response: Result<seq<Candidate>, string>,
                               timestamp: string, imageWrites: seq<bool>)
    returns (r: Result<GeminiImageEditOutput, ToolError>, sent: Option<ContentRequest>)
    ensures CheckEdit(input).Some? ==> r == Err(CheckEdit(input).value) && sent.None?
    ensures CheckEdit(input).None? && readError.Some? ==>
      r == Err(FileError("failed to read input image: " + readError.value)) && sent.None?
    ensures sent.Some? <==> CheckEdit(input).None? && readError.None?
    ensures sent.Some? ==> (sent.value.images == [input.inputImagePath]
      && Defaulted(sent.value.model, input.model, "gemini-2.5-flash-image-preview")
      && sent.value.prompt == Join(EditClauses(input.editPrompt, input.preserveStyle, input.maskArea,
                                               OrDefault(input.editType, "modify")), ". "))
    ensures r.Ok? <==> sent.Some? && response.Ok? && response.value != []
    ensures sent.Some? && response.Err? ==> r == Err(RemoteError("error editing image: " + response.error))
    ensures sent.Some? && response == Ok([]) ==> r == Err(EmptyResult("no edited content was generated"))
    ensures r.Ok? ==> (r.value.model == sent.value.model
      && Defaulted(r.value.editType, input.editType, "modify")
      && r.value.originalImage == input.inputImagePath && r.value.generatedAt == timestamp)
    ensures r.Ok? ==> (r.value.savedFiles
      == SavedImages(ImageOutputDir(input.outputDirectory, config.outputDir), "gemini_edited",
                     r.value.editType, timestamp, Slots(response.value), imageWrites))
    ensures r.Ok? ==> r.value.editedImage == Last(r.value.savedFiles)
    ensures r.Ok? ==> r.value.metadata == map[
      "original_image" := input.inputImagePath, "edit_prompt" := input.editPrompt,
      "edit_type" := r.value.editType, "preserve_style" := BoolString(input.preserveStyle),
      "mask_area" := input.maskArea]
  {
    var invalid := CheckEdit(input);
    if invalid.Some? {
      return Err(invalid.value), None;
    }
    var model := OrDefault(input.model, DefaultGeminiModel);
    var editType := OrDefault(input.editType, DefaultEditType);
    if readError.Some? {
      return Err(FileError("failed to read input image: " + readError.value)), None;
    }

    var parts := BuildEditPrompt(input.editPrompt, input.preserveStyle, input.maskArea, editType);
    var promptText := Join(parts, Separator);
    sent := Some(ContentRequest(model, promptText, [input.inputImagePath]));

    if response.Err? {
      return Err(RemoteError("error editing image: " + response.error)), sent;
    }
    var candidates := response.value;
    if candidates == [] {
      return Err(EmptyResult("no edited content was generated")), sent;
    }

    var outputDir := ImageOutputDir(input.outputDirectory, config.outputDir);
    var _, savedFiles, editedImagePath, _ :=
      SaveResponseImages(candidates, outputDir, "gemini_edited", editType, timestamp, imageWrites);
    var metadata := map[
      "original_image" := input.inputImagePath, "edit_prompt" := input.editPrompt,
      "edit_type" := editType, "preserve_style" := BoolString(input.preserveStyle),
      "mask_area" := input.maskArea];
    r := Ok(GeminiImageEditOutput(
      originalImage := input.inputImagePath, editedImage := editedImagePath, editType := editType,
      model := model, savedFiles := savedFiles, metadata := metadata, generatedAt := timestamp));
  }

  /** Whether reading the k-th input image failed (`readErrors[k]` carries the error; past the end means success). */
  predicate ReadFailed(readErrors: seq<Option<string>>, k: nat)
  {
    k < |readErrors| && readErrors[k].Some?
  }

  /** The error for a failed read of image number k + 1. */
  function ReadFailure(k: nat, path: string, error: string): ToolError
  {
    FileError("failed to read image " + NatToString(k + 1) + " (" + path + "): " + error)
  }

  /** The first of images i..n-1 whose read failed, if any. */
  function FirstUnreadable(readErrors: seq<Option<string>>, n: nat, i: nat): (r: Option<nat>)
    requires i <= n
    decreases n - i
    ensures r.None? <==> forall k :: i <= k < n ==> !ReadFailed(readErrors, k)
    ensures r.Some? ==> (i <= r.value < n && ReadFailed(readErrors, r.value)
      && forall j :: i <= j < r.value ==> !ReadFailed(readErrors, j))
  {
    if i == n then None
    else if ReadFailed(readErrors, i) then Some(i)
    else FirstUnreadable(readErrors, n, i + 1)
  }

  /** The error the multi-image tool reports for its inputs: the first unreadable image, by number and path. */
  function ReadOutcome(paths: seq<string>, readErrors: seq<Option<string>>): Option<ToolError>
  {
    var first := FirstUnreadable(readErrors, |paths|, 0);
    if first.None? then None
    else Some(ReadFailure(first.value, paths[first.value], readErrors[first.value].value))
  }

  /** The multi-image read loop: the first unreadable image aborts the call. */
  method ReadInputImages(paths: seq<string>, readErrors: seq<Option<string>>) returns (failure: Option<ToolError>)
    ensures failure == ReadOutcome(paths, readErrors)
    ensures failure.None? <==> forall k :: 0 <= k < |paths| ==> !ReadFailed(readErrors, k)
  {
    var i := 0;
    while i < |paths|
      invariant i <= |paths|
      invariant FirstUnreadable(readErrors, |paths|, i) == FirstUnreadable(readErrors, |paths|, 0)
    {
      if ReadFailed(readErrors, i) {
        return Some(ReadFailure(i, paths[i], readErrors[i].value));
      }
      i := i + 1;
    }
    return None;
  }

  /** Gemini multi-image combine. `readErrors[k]` is the outcome of reading the k-th input image. */
  method HandleGeminiMultiImage(config: CommonConfig.Config, input: GeminiMultiImageInput,
                                readErrors: seq<Option<string>>, response: Result<seq<Candidate>, string>,
                                timestamp: string, imageWrites: seq<bool>)
    returns (r: Result<GeminiMultiImageOutput, ToolError>, sent: Option<ContentRequest>)
    ensures CheckMultiImage(input).Some? ==> r == Err(CheckMultiImage(input).value) && sent.None?
    ensures sent.Some? <==> (CheckMultiImage(input).None?
      && forall k :: 0 <= k < |input.inputImagePaths| ==> !ReadFailed(readErrors, k))
    ensures CheckMultiImage(input).None? && sent.None? ==>
      r == Err(ReadOutcome(input.inputImagePaths, readErrors).value)
    ensures sent.Some? ==> (sent.value.images == input.inputImagePaths
      && Defaulted(sent.value.model, input.model, "gemini-2.5-flash-image-preview")
      && sent.value.prompt == Join(MultiImageClauses(input.combinePrompt, OrDefault(input.blendMode, "merge"),
                                                     input.outputStyle), ". "))
    ensures r.Ok? <==> sent.Some? && response.Ok? && response.value != []
    ensures sent.Some? && response.Err? ==> r == Err(RemoteError("error combining images: " + response.error))
    ensures sent.Some? && response == Ok([]) ==> r == Err(EmptyResult("no combined content was generated"))
    ensures r.Ok? ==> (r.value.model == sent.value.model
      && Defaulted(r.value.blendMode, input.blendMode, "merge")
      && r.value.inputImages == input.inputImagePaths && r.value.generatedAt == timestamp
      && r.value.imagesProcessed == |input.inputImagePaths|
      && 2 <= r.value.imagesProcessed <= 3)
    ensures r.Ok? ==> (r.value.savedFiles
      == SavedImages(ImageOutputDir(input.outputDirectory, config.outputDir), "gemini_combined",
                     r.value.blendMode, timestamp, Slots(response.value), imageWrites))
    ensures r.Ok? ==> r.value.combinedImage == Last(r.value.savedFiles)
    ensures r.Ok? ==> r.value.metadata == map[
      "combine_prompt" := input.combinePrompt, "blend_mode" := r.value.blendMode,
      "output_style" := input.outputStyle, "images_count" := NatToString(|input.inputImagePaths|)]
  {
    var invalid := CheckMultiImage(input);
    if invalid.Some? {
      return Err(invalid.value), None;
    }
    var model := OrDefault(input.model, DefaultGeminiModel);
    var blendMode := OrDefault(input.blendMode, DefaultBlendMode);

    var parts := BuildMultiImagePrompt(input.combinePrompt, blendMode, input.outputStyle);
    var promptText := Join(parts, Separator);
    var failure := ReadInputImages(input.inputImagePaths, readErrors);
    if failure.Some? {
      return Err(failure.value), None;
    }
    sent := Some(ContentRequest(model, promptText, input.inputImagePaths));

    if response.Err? {
      return Err(RemoteError("error combining images: " + response.error)), sent;
    }
    var candidates := response.value;
    if candidates == [] {
      return Err(EmptyResult("no combined content was generated")), sent;
    }

    var outputDir := ImageOutputDir(input.outputDirectory, config.outputDir);
    var _, savedFiles, combinedImagePath, _ :=
      SaveResponseImages(candidates, outputDir, "gemini_combined", blendMode, timestamp, imageWrites);
    var metadata := map[
      "combine_prompt" := input.combinePrompt, "blend_mode" := blendMode,
      "output_style" := input.outputStyle, "images_count" := NatToString(|input.inputImagePaths|)];
    r := Ok(GeminiMultiImageOutput(
      inputImages := input.inputImagePaths, combinedImage := combinedImagePath, blendMode := blendMode,
      model := model, savedFiles := savedFiles, metadata := metadata, generatedAt := timestamp,
      imagesProcessed := |input.inputImagePaths|));
  }

  /** Imagen text-to-image. `writes[i]` is the outcome of saving the i-th generated image. */
  method HandleImagenGeneration(input: ImagenGenerationInput, response: Result<seq<GeneratedImage>, string>,
                                timestamp: string, writes: seq<bool>)
    returns (r: Result<ImagenGenerationOutput, ToolError>, sent: Option<ImagesRequest>)
    ensures input.prompt == "" ==> r == Err(InvalidArgument("prompt is required")) && sent.None?
    ensures input.prompt != "" ==> (sent.Some? && sent.value.prompt == input.prompt
      && Defaulted(sent.value.model, input.model, "imagen-4.0-generate-001")
      && Defaulted(sent.value.aspectRatio, input.aspectRatio, "1:1")
      && sent.value.numberOfImages == ToInt32(ImageCount(input.numImages))
      && (input.numImages == 0 ==> sent.value.numberOfImages == 1)
      && (-0x8000_0000 <= input.numImages < 0x8000_0000 && input.numImages != 0 ==>
            sent.value.numberOfImages == input.numImages))
    ensures r.Ok? <==> input.prompt != "" && response.Ok? && response.value != []
    ensures input.prompt != "" && response.Err? ==>
      r == Err(RemoteError("error generating images: " + response.error))
    ensures input.prompt != "" && response == Ok([]) ==> r == Err(EmptyResult("no images were generated"))
    ensures r.Ok? ==> (r.value.model == sent.value.model
      && r.value.imagesGenerated == |response.value|
      && r.value.savedFiles == ImagenSaved(response.value, input.outputDirectory, timestamp, writes))
  {
    var invalid := CheckPrompt(input.prompt);
    if invalid.Some? {
      return Err(invalid.value), None;
    }
    var model := OrDefault(input.model, DefaultImagenModel);
    var numImages := ImageCount(input.numImages);
    var aspectRatio := OrDefault(input.aspectRatio, DefaultImagenAspectRatio);
    sent := Some(ImagesRequest(model, input.prompt, ToInt32(numImages), aspectRatio));

    if response.Err? {
      return Err(RemoteError("error generating images: " + response.error)), sent;
    }
    var images := response.value;
    if images == [] {
      return Err(EmptyResult("no images were generated")), sent;
    }
    var savedFiles := SaveGeneratedImages(images, input.outputDirectory, timestamp, writes);
    r := Ok(ImagenGenerationOutput(imagesGenerated := |images|, model := model, savedFiles := savedFiles));
  }
}
