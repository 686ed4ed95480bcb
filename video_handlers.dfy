/**
 * The three video tools (legacy combined, text-to-video, image-to-video). Each
 * validates, fills in defaults, composes the prompt with its negative prompt,
 * submits one long-running operation, polls it, reports a status, and records
 * the video and metadata files it wrote. `submitted` is the client's answer to
 * the submission, `answers` its answers to the status checks, `files` the
 * outcomes of the two file writes.
 */
module VideoHandlers {
  import opened Wrappers
  import opened Genai
  import opened Text
  import opened Tools
  import opened Prompts
  import opened Artifacts
  import opened Poller

  datatype VideoTool = LegacyVideo | TextToVideo | ImageToVideo

  /** Whether saving the video and saving the metadata sidecar (directory and write) succeed. */
  datatype VideoFiles = VideoFiles(videoSaved: bool, metadataSaved: bool)

  /** The video file: a `veo_` name carrying the timestamp, with an `.mp4` extension. */
  function VideoFileName(tool: VideoTool, timestamp: string): (name: string)
    ensures "veo_" <= name && |name| >= 4 + |timestamp| + 4
    ensures name[|name| - 4..] == ".mp4"
    ensures name[|name| - 4 - |timestamp|..|name| - 4] == timestamp
  {
    match tool
    case LegacyVideo => "veo_video_" + timestamp + ".mp4"
    case TextToVideo => "veo_text_to_video_" + timestamp + ".mp4"
    case ImageToVideo => "veo_image_to_video_" + timestamp + ".mp4"
  }

  /** The metadata sidecar: a `veo_` name carrying the timestamp, with a `.json` extension. */
  function VideoMetadataName(tool: VideoTool, timestamp: string): (name: string)
    ensures "veo_" <= name && |name| >= 4 + |timestamp| + 5
    ensures name[|name| - 5..] == ".json"
    ensures name[|name| - 5 - |timestamp|..|name| - 5] == timestamp
  {
    match tool
    case LegacyVideo => "veo_metadata_" + timestamp + ".json"
    case TextToVideo => "veo_text_to_video_metadata_" + timestamp + ".json"
    case ImageToVideo => "veo_image_to_video_metadata_" + timestamp + ".json"
  }

  function StartErrorPrefix(tool: VideoTool): string
  {
    match tool
    case LegacyVideo => "error starting video generation: "
    case TextToVideo => "error starting text-to-video generation: "
    case ImageToVideo => "error starting image-to-video generation: "
  }

  /** The seed is recorded only when it is positive. */
  function WithSeed(m: map<string, string>, seed: int): map<string, string>
  {
    if seed > 0 then m["seed" := NatToString(seed)] else m
  }

  /** The metadata map each tool returns. */
  function VideoMetadata(tool: VideoTool, input: VeoInput, operationId: string): (m: map<string, string>)
    ensures "original_prompt" in m && "negative_prompt" in m && "operation_id" in m
    ensures m["original_prompt"] == input.prompt && m["negative_prompt"] == input.negativePrompt
    ensures m["operation_id"] == operationId
    ensures "seed" in m <==> tool != LegacyVideo && input.seed > 0
    ensures "generation_type" in m <==> tool != LegacyVideo
    ensures "input_image" in m <==> tool == ImageToVideo
    ensures tool == TextToVideo ==> m["generation_type"] == "text-to-video"
    ensures tool == ImageToVideo ==> m["generation_type"] == "image-to-video"
    ensures tool == ImageToVideo ==> m["input_image"] == input.imagePath
    ensures "seed" in m ==> m["seed"] == NatToString(input.seed)
    ensures m.Keys <= {"original_prompt", "negative_prompt", "operation_id", "generation_type", "input_image", "seed"}
  {
    var base := map["original_prompt" := input.prompt, "negative_prompt" := input.negativePrompt,
                     "operation_id" := operationId];
    match tool
    case LegacyVideo => base
    case TextToVideo => WithSeed(base["generation_type" := "text-to-video"], input.seed)
    case ImageToVideo =>
      WithSeed(base["generation_type" := "image-to-video"]["input_image" := input.imagePath], input.seed)
  }

  /** The video is saved only for a completed job with a requested directory and a successful write. */
  predicate VideoWritten(status: VideoStatus, input: VeoInput, files: VideoFiles)
  {
    status == Completed && input.outputDirectory != "" && files.videoSaved
  }

  /** What a valid video request leads to, once the operation has been submitted. */
  predicate VideoJobResult(tool: VideoTool, input: VeoInput, submitted: Result<Operation, string>,
                           answers: seq<StatusCheck>, timestamp: string, files: VideoFiles,
                           r: Result<VeoGenerationOutput, ToolError>, sent: Option<VideosRequest>, checks: nat)
    requires MaxAttempts <= |answers|
  {
    && sent.Some?
    && Defaulted(sent.value.model, input.model, "veo-3.0-generate-001")
    && sent.value.prompt == VideoPrompt(input.prompt, input.negativePrompt)
    && (submitted.Err? ==> r == Err(RemoteError(StartErrorPrefix(tool) + submitted.error)) && checks == 0)
    && (submitted.Ok? ==>
          var outcome := Poll(submitted.value, answers, 0);
          var status := StatusOf(outcome.operation);
          var videoPath := PathJoin(input.outputDirectory, VideoFileName(tool, timestamp));
          var metadataPath := PathJoin(input.outputDirectory, VideoMetadataName(tool, timestamp));
          && checks == outcome.checks
          && r.Ok?
          && r.value.operationId == submitted.value.name
          && r.value.status == StatusName(status)
          && r.value.videoUrl == (if VideoWritten(status, input, files) then videoPath else "")
          && r.value.savedFiles
             == (if VideoWritten(status, input, files) then [videoPath] else [])
                + (if input.outputDirectory != "" && files.metadataSaved then [metadataPath] else [])
          && r.value.model == sent.value.model
          && Defaulted(r.value.aspectRatio, input.aspectRatio, "16:9")
          && Defaulted(r.value.resolution, input.resolution, "720p")
          && r.value.metadata == VideoMetadata(tool, input, submitted.value.name)
          && r.value.generatedAt == timestamp
          && r.value.estimatedLength == "8 seconds")
  }

  /** Submission, polling, status, files: the part the three tools share. */
  method RunVideoJob(tool: VideoTool, input: VeoInput, submitted: Result<Operation, string>,
                     answers: seq<StatusCheck>, timestamp: string, files: VideoFiles)
    returns (r: Result<VeoGenerationOutput, ToolError>, sent: Option<VideosRequest>, checks: nat)
    requires MaxAttempts <= |answers|
    ensures VideoJobResult(tool, input, submitted, answers, timestamp, files, r, sent, checks)
    ensures checks <= MaxAttempts
  {
    var aspectRatio := OrDefault(input.aspectRatio, DefaultVideoAspectRatio);
    var resolution := OrDefault(input.resolution, DefaultResolution);
    var model := OrDefault(input.model, DefaultVeoModel);
    var promptText := VideoPrompt(input.prompt, input.negativePrompt);
    sent := Some(VideosRequest(model, promptText));
    if submitted.Err? {
      return Err(RemoteError(StartErrorPrefix(tool) + submitted.error)), sent, 0;
    }
    var operationId := submitted.value.name;
    var operation;
    operation, checks := PollOperation(submitted.value, answers);

    var savedFiles := [];
    var videoUrl := "";
    var status := StatusOf(operation);
    if status == Completed && input.outputDirectory != "" && files.videoSaved {
      var outputPath := PathJoin(input.outputDirectory, VideoFileName(tool, timestamp));
      savedFiles := savedFiles + [outputPath];
      videoUrl := outputPath;
    }
    var metadata := VideoMetadata(tool, input, operationId);
    if input.outputDirectory != "" && files.metadataSaved {
      savedFiles := savedFiles + [PathJoin(input.outputDirectory, VideoMetadataName(tool, timestamp))];
    }
    r := Ok(VeoGenerationOutput(
      operationId := operationId, status := StatusName(status), videoUrl := videoUrl,
      savedFiles := savedFiles, model := model, aspectRatio := aspectRatio, resolution := resolution,
      metadata := metadata, generatedAt := timestamp, estimatedLength := EstimatedVideoLength));
  }

  /** The legacy video tool: only the prompt is required; its image path is not used. */
  method HandleVeoGeneration(input: VeoInput, submitted: Result<Operation, string>,
                             answers: seq<StatusCheck>, timestamp: string, files: VideoFiles)
    returns (r: Result<VeoGenerationOutput, ToolError>, sent: Option<VideosRequest>, checks: nat)
    requires MaxAttempts <= |answers|
    ensures input.prompt == "" ==> r == Err(InvalidArgument("prompt is required")) && sent.None? && checks == 0
    ensures input.prompt != "" ==>
      VideoJobResult(LegacyVideo, input, submitted, answers, timestamp, files, r, sent, checks)
    ensures checks <= MaxAttempts
  {
    var invalid := CheckPrompt(input.prompt);
    if invalid.Some? {
      return Err(invalid.value), None, 0;
    }
    r, sent, checks := RunVideoJob(LegacyVideo, input, submitted, answers, timestamp, files);
  }

  /** Text-to-video: only the prompt is required. */
  method HandleVeoTextToVideo(input: VeoInput, submitted: Result<Operation, string>,
                              answers: seq<StatusCheck>, timestamp: string, files: VideoFiles)
    returns (r: Result<VeoGenerationOutput, ToolError>, sent: Option<VideosRequest>, checks: nat)
    requires MaxAttempts <= |answers|
    ensures input.prompt == "" ==> r == Err(InvalidArgument("prompt is required")) && sent.None? && checks == 0
    ensures input.prompt != "" ==>
      VideoJobResult(TextToVideo, input, submitted, answers, timestamp, files, r, sent, checks)
    ensures checks <= MaxAttempts
  {
    var invalid := CheckPrompt(input.prompt);
    if invalid.Some? {
      return Err(invalid.value), None, 0;
    }
    r, sent, checks := RunVideoJob(TextToVideo, input, submitted, answers, timestamp, files);
  }

  /** Image-to-video: image path, prompt, and an existing image file are required. */
  method HandleVeoImageToVideo(input: VeoInput, imageExists: bool, submitted: Result<Operation, string>,
                               answers: seq<StatusCheck>, timestamp: string, files: VideoFiles)
    returns (r: Result<VeoGenerationOutput, ToolError>, sent: Option<VideosRequest>, checks: nat)
    requires MaxAttempts <= |answers|
    ensures CheckImageToVideo(input, imageExists).Some? ==>
      r == Err(CheckImageToVideo(input, imageExists).value) && sent.None? && checks == 0
    ensures CheckImageToVideo(input, imageExists).None? ==>
      VideoJobResult(ImageToVideo, input, submitted, answers, timestamp, files, r, sent, checks)
    ensures checks <= MaxAttempts
  {
    var invalid := CheckImageToVideo(input, imageExists);
    if invalid.Some? {
      return Err(invalid.value), None, 0;
    }
    r, sent, checks := RunVideoJob(ImageToVideo, input, submitted, answers, timestamp, files);
  }

  /** A video file is recorded only for a completed job. */
  lemma VideoOnlyWhenCompleted(tool: VideoTool, input: VeoInput, submitted: Result<Operation, string>,
                               answers: seq<StatusCheck>, timestamp: string, files: VideoFiles,
                               r: Result<VeoGenerationOutput, ToolError>, sent: Option<VideosRequest>, checks: nat)
    requires MaxAttempts <= |answers|
    requires VideoJobResult(tool, input, submitted, answers, timestamp, files, r, sent, checks)
    requires r.Ok? && r.value.videoUrl != ""
    ensures r.value.status == "completed"
    ensures r.value.videoUrl in r.value.savedFiles
  {
  }

  /** A backend that never finishes: 60 checks, status "timeout", and at most the metadata file. */
  lemma NeverDoneVideoTimesOut(tool: VideoTool, input: VeoInput, op: Operation,
                               answers: seq<StatusCheck>, timestamp: string, files: VideoFiles,
                               r: Result<VeoGenerationOutput, ToolError>, sent: Option<VideosRequest>, checks: nat)
    requires MaxAttempts <= |answers|
    requires !op.done
    requires forall k :: 0 <= k < MaxAttempts ==> answers[k].error.None? && !answers[k].operation.done
    requires VideoJobResult(tool, input, Ok(op), answers, timestamp, files, r, sent, checks)
    ensures checks == MaxAttempts
    ensures r.Ok? && r.value.status == "timeout" && r.value.videoUrl == ""
    ensures |r.value.savedFiles| <= 1
  {
    NeverDoneTimesOut(op, answers, 0);
  }
}
