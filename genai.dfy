/**
 * What the handlers see of the generative-media client. The client itself is
 * remote; its answers enter the model as values of these types.
 */
module Genai {
  import opened Wrappers

  type Bytes = seq<bv8>

  /** A content fragment: text, inline binary data (an image), or both. */
  datatype Part = Part(text: string, inlineData: Option<Bytes>)

  /** A candidate answer; its content may be absent. */
  datatype Candidate = Candidate(content: Option<seq<Part>>)

  /** One entry of an image-generation answer; the image may be absent. */
  datatype GeneratedImage = GeneratedImage(image: Option<Bytes>)

  /** A long-running video operation as the client reports it. */
  datatype Operation = Operation(name: string, done: bool, error: Option<string>, generatedVideos: nat)

  /** The pair one status check returns: the operation value and the call's error, if any. */
  datatype StatusCheck = StatusCheck(operation: Operation, error: Option<string>)

  /** A content-generation request: model, prompt text and the local images attached to it. */
  datatype ContentRequest = ContentRequest(model: string, prompt: string, images: seq<string>)

  /** An image-generation request; the count is the 32-bit value the client receives. */
  datatype ImagesRequest = ImagesRequest(model: string, prompt: string, numberOfImages: int, aspectRatio: string)

  /** A video-generation request. */
  datatype VideosRequest = VideosRequest(model: string, prompt: string)

  /** A part counts as an image when it carries non-empty inline data. */
  predicate HasImage(p: Part)
  {
    p.inlineData.Some? && |p.inlineData.value| > 0
  }
}
