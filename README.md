# gemini-mcp: a Dafny model of the tool handlers and configuration

gemini-mcp is a server that exposes Google's image and video generation as
callable tools. This project models the deterministic part of it:

- how each tool handler validates its input before it sends anything;
- how it fills in its defaults;
- how it assembles the prompt from clauses joined by `". "`;
- the video poller: at most 60 status checks, then a status from the final operation;
- where generated files go, what they are called, and which paths are reported;
- the two configuration loaders and their env-or-default lookup.

The remote client's answers, file reads and file writes enter the model as
parameters: a `Result` for each remote call, a list of status-check answers
for the poller, and booleans for write outcomes. Each handler returns the
request it handed to the remote client (`sent`). `None` means the call was
rejected before any remote call.

Modules: `Wrappers` (Option, Result), `Text` (`strings.Join`, `%d`),
`Environment` (the environment as a map, `getEnvOrDefault`), `CommonConfig`
and `ServerConfig` (the two loaders), `Genai` (the client's values), `Tools`
(inputs, outputs, errors, default table, required-field checks), `Prompts`,
`Poller`, `Artifacts` (output directory, file names, response loops),
`ImageHandlers` and `VideoHandlers`.

Both configuration files carry the same `getEnvOrDefault`. The model defines
it once, in `Environment`.

Three behaviours of the code are easy to miss:

- A failed status check does not leave the status at "generating". The loop
  keeps the operation the client handed back, and an unfinished operation is
  then reported as "timeout" (`Poller.StopsAtFirstFailure`).
- A finished job with no error and no videos is reported as "generating",
  not as failed or empty (`Poller.StatusOf`).
- Image file names are not distinct within one call. The index in a name is
  the part's index within its candidate. So two candidates that each carry an
  image as their first part produce the same path twice
  (`Artifacts.CandidatesShareFileNames`).

## Model

| member | source | states |
|---|---|---|
| Environment.Getenv | internal/common/config.go:23 | a set variable reads as its value, an unset one as "" |
| Environment.GetEnvOrDefault | internal/common/config.go:42-47 | a set, non-empty variable wins; unset or empty gives the default; a non-empty default never yields "" |
| Environment.EmptyIsAbsent | internal/config/config.go:39-44 | a variable set to "" reads exactly like an unset one, and both give the default |
| CommonConfig.LoadConfig | internal/common/config.go:21-30 | API key, project id and bucket copied verbatim; location, port, transport and output dir default to us-central1, 8080, stdio, ./output and are never empty |
| CommonConfig.Validate | internal/common/config.go:49-54 | an error exactly when the API key is empty, with the fixed message |
| CommonConfig.LoadedConfigValid | main.go:183-186 | startup passes validation iff GOOGLE_API_KEY is set and non-empty |
| ServerConfig.Load | internal/config/config.go:17-37 | fails iff the key is empty or the output directory cannot be made; the key check comes first; a directory failure carries the underlying error after "failed to create output directory: "; every loaded config has a non-empty key, port 8080 and the documented defaults |
| ServerConfig.SsePortFixed | internal/config/config.go:24 | the SSE port is 8080 whatever the environment |
| ServerConfig.LoadersAgree | internal/config/config.go:18-23 | both loaders read the same variables with the same defaults |
| Text.Join | main.go:320 | `strings.Join`: the joined text opens with the first part and is at least as long as all parts together |
| Text.JoinSnoc | main.go:320 | appending a clause adds exactly one separator and the clause at the end |
| Text.JoinLength | main.go:320 | the joined prompt is the clauses' total length plus one separator per gap |
| Text.JoinStartsWith | main.go:320 | the joined prompt opens with the first clause, a separator and the second clause |
| Text.NatToString | main.go:669 | `%d` of a count is a non-empty string of decimal digits, one digit exactly below 10 |
| Text.NatToStringRoundTrip | main.go:669 | `%d` formatting of a count reads back as the same number |
| Tools.ImageCount | main.go:694-697 | num_images 0 becomes 1; any other value passes through |
| Tools.ToInt32 | main.go:708 | the count sent is the 32-bit two's-complement image of the int; values in range are unchanged |
| Tools.CheckPrompt | main.go:273-275 | rejects exactly the empty prompt, with "prompt is required" |
| Tools.CheckEdit | main.go:429-434 | accepts iff image path and edit prompt are both given; the image path is checked first |
| Tools.CheckMultiImage | main.go:558-566 | accepts iff there are 2 or 3 paths and a combine prompt; each failure has its own message |
| Tools.CheckImageToVideo | main.go:1050-1060 | accepts iff image path and prompt are given and the file exists, checked in that order |
| Prompts.ImageClauses | main.go:301-318 | starts with the picture request; style, aspect-ratio, text and quality clauses each appear iff their condition holds, in that order, quality last; the clause count matches |
| Prompts.BuildImagePrompt | main.go:301-318 | the successive appends build exactly that clause list |
| Prompts.EnhancedPromptOpening | main.go:301-320 | with a style, the enhanced prompt begins "Create a picture of <prompt>. Style: <style>" |
| Prompts.PromptOnlyEnhancedPrompt | main.go:277-320 | a request with only a prompt yields picture request, photorealistic style and the high-quality clause |
| Prompts.EditTypeClause | main.go:466-475 | add, remove and style each get their own clause; any other type reads as "Modify" |
| Prompts.EditClauses | main.go:455-475 | edit prompt first, preserve clause iff requested, mask clause iff given, exactly one edit-type clause last |
| Prompts.BuildEditPrompt | main.go:455-475 | the appends and the switch build exactly that clause list |
| Prompts.BlendClause | main.go:584-593 | collage, overlay and sequence each get their own clause; any other blend mode reads as a merge |
| Prompts.MultiImageClauses | main.go:581-597 | combine prompt, exactly one blend clause, then the output-style clause iff given |
| Prompts.BuildMultiImagePrompt | main.go:581-597 | the appends and the switch build exactly that clause list |
| Prompts.VideoPrompt | main.go:780-783 | the prompt unchanged iff there is no negative prompt; otherwise the prompt followed by exactly ". Avoid: <negative>" |
| Prompts.VideoPromptIsJoin | main.go:924-927 | the negative-prompt form is the ". " join of the prompt and "Avoid: <negative>" |
| Poller.Poll | main.go:801-810 | at most 60 checks; none when already done; stops at the first failed check or finished operation, ending with the operation that check returned; when polling ends with neither a failed check nor a finished operation, all 60 checks were made |
| Poller.PollOperation | main.go:945-954 | the loop with its break computes exactly the poll specification |
| Poller.StatusOf | main.go:814-849 | not done gives timeout; done with error gives failed; done with videos gives completed; done with none gives generating |
| Poller.StatusName | main.go:958-993 | the four statuses map one-to-one to "generating", "failed", "completed", "timeout" |
| Poller.NeverDoneTimesOut | main.go:1130-1139 | a backend that never finishes makes exactly 60 checks and reports timeout |
| Poller.StopsAtFirstDone | main.go:802 | the first answer reporting done ends polling with that operation after that many checks |
| Poller.StopsAtFirstFailure | main.go:805-809 | the first failed check ends polling with the operation it returned; if unfinished the status is timeout |
| Poller.DoneAtSubmissionNotPolled | main.go:801-802 | an operation already done at submission is never checked |
| Artifacts.ImageOutputDir | main.go:352-355 | images go to the requested directory, else to the configured one |
| Artifacts.ImageFileName | main.go:359 | `<prefix>_<tag>_<timestamp>_<index>.png`: opens with the tool prefix, tag and timestamp, ends in `.png` |
| Artifacts.ImageFileNamesDistinct | main.go:359 | two names built in one call are equal only for equal part indices |
| Artifacts.PartSlotsExact | main.go:342-350 | the counted slots are exactly the parts with non-empty inline data, in increasing order |
| Artifacts.SavedImagesCount | main.go:357-367 | one path per successful write, none without a directory, never more than the images |
| Artifacts.SavedImagesNamed | main.go:357-363 | every recorded path is a named image file in the output directory whose write succeeded |
| Artifacts.CandidatesShareFileNames | main.go:337-363 | two candidates each holding an image as first part record the same path twice |
| Artifacts.SaveCandidateImages | main.go:342-369 | one candidate's parts extend the image count, recorded paths, last path and last text |
| Artifacts.SaveResponseImages | main.go:337-370 | images_created counts every image part whatever the writes; saved paths grow only on successful writes; the last text fragment is kept |
| Artifacts.ImagenFileName | main.go:733 | `imagen_<timestamp>_<index>.png`: opens with `imagen_` and the timestamp, ends in `.png` |
| Artifacts.ImagenSavedWellFormed | main.go:726-745 | Imagen paths are at most one per image, none without a requested directory, each for a present non-empty image |
| Artifacts.SaveGeneratedImages | main.go:726-745 | the Imagen save loop records exactly the images that are present, non-empty and written |
| ImageHandlers.Description | main.go:373-375 | the description is never empty: the last text fragment when there is one, else "Image generated successfully" |
| ImageHandlers.MetadataSaved | main.go:386-409 | at most one sidecar path, recorded iff a directory was requested and the write succeeded, named `gemini_metadata_<timestamp>.json` in that directory |
| ImageHandlers.HandleGeminiImageGeneration | main.go:272-426 | empty prompt rejected before any call; defaults for model, style, quality, language; the enhanced prompt is sent; images counted, paths recorded under the fallback directory, sidecar only for a requested directory; remote and empty errors |
| ImageHandlers.HandleGeminiImageEdit | main.go:428-555 | missing path or edit prompt rejected, unreadable image rejected, all before any call; the edit prompt and image are sent; edited image is the last saved path |
| ImageHandlers.FirstUnreadable | main.go:603-607 | no image fails iff none is reported; a reported image did fail to read and every earlier one read |
| ImageHandlers.ReadInputImages | main.go:603-615 | the loop reports exactly the first unreadable image, by its 1-based number and path; it succeeds iff every image reads |
| ImageHandlers.HandleGeminiMultiImage | main.go:557-682 | 2-3 paths and a combine prompt required, and every image must read, before any call; a read failure is reported as the first unreadable image; blend default merge; images_processed is the path count |
| ImageHandlers.HandleImagenGeneration | main.go:684-752 | empty prompt rejected before any call; model, count and aspect-ratio defaults; the count sent is the `int32` wrap of the defaulted count; images_generated counts every returned entry |
| VideoHandlers.VideoFileName | main.go:828 | a `veo_` name ending in the timestamp and `.mp4` |
| VideoHandlers.VideoMetadataName | main.go:860 | a `veo_` name ending in the timestamp and `.json` |
| VideoHandlers.VideoMetadata | main.go:1181-1191 | prompt, negative prompt and operation id always; generation type "text-to-video" or "image-to-video" for the two new tools; input image, the image path, only for image-to-video; seed, as `%d`, only when positive; no other key |
| VideoHandlers.RunVideoJob | main.go:759-895 | defaults 16:9, 720p, veo-3.0-generate-001; the composed prompt is sent; operation id is the submitted one; status from the polled operation; video recorded only when completed and written |
| VideoHandlers.HandleVeoGeneration | main.go:754-896 | empty prompt rejected before any call and without polling; otherwise the shared job result |
| VideoHandlers.HandleVeoTextToVideo | main.go:898-1047 | empty prompt rejected before any call; otherwise the shared job result with text-to-video names |
| VideoHandlers.HandleVeoImageToVideo | main.go:1049-1234 | missing image path, missing prompt or missing file rejected in that order before any call; otherwise the shared job result |
| VideoHandlers.VideoOnlyWhenCompleted | main.go:816-845 | a reported video URL implies status completed and the URL is among the saved files |
| VideoHandlers.NeverDoneVideoTimesOut | main.go:945-993 | a backend that never finishes gives 60 checks, status timeout, no video URL and at most the metadata file |

## Left out

- The tool-server transport, tool registration, flag parsing, `--version` output and logging: library plumbing with no decisions of its own.
- The `--transport` flag override in `main`: flag parsing is not modelled.
- The remote client (content, image and video generation, status checks, downloads): it is a foreign remote service. Its answers are parameters. The image-to-video tool's Imagen step is not modelled (main.go:1087-1106). It asks Imagen for an image from the text "Transform this image: <prompt>" alone, ignores an Imagen error, and passes the first generated image, if any, as the video's starting frame (main.go:1119). The user's `image_path` is only checked for existence (main.go:1058) and is never read or sent. The model's `VideosRequest` omits that starting image.
- A client that returns no operation together with a status-check error would make the source dereference nil. The model always has an operation value.
- A finished operation with no error is assumed to carry a response: the source reads `operation.Response` (main.go:820, 964, 1149) and would dereference nil without one. `Operation` has only a video count, so such an operation is reported as "generating".
- The first generated video is assumed to carry its `Video` value: the source reads `video.Video` (main.go:835, 979, 1164) without a nil check. Only the write outcome is modelled.
- File-system effects: directory creation, reads, writes and the existence check are outcome parameters. When a write list is shorter than the images, the missing entries count as failed writes.
- `filepath.Join`: modelled as `dir + "/" + name`, without path cleaning.
- `time.Now` formatting and the 10-second sleeps: the timestamp is an opaque string, and the sleeps carry no logic.
- JSON marshalling of the metadata sidecars: only whether the sidecar path is recorded is modelled, not its contents. Marshalling is taken to succeed.
- Image bytes are never inspected beyond being non-empty. Text-to-video's input has no image path; the shared `VeoInput` carries one that this tool ignores.
- `pkg/types/mcp.go` holds only protocol structs and `main_test.go` checks constants; neither is part of this model.
