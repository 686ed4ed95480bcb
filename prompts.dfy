/**
 * How each tool turns its input into the instruction text sent to the model:
 * an ordered list of clauses, each appended under its own condition, joined
 * with ". ".
 */
module Prompts {
  import opened Text
  import Tools

  const Separator := ". "

  // Image generation clauses.
  function ImageBase(prompt: string): string { "Create a picture of " + prompt }
  function StyleClause(style: string): string { "Style: " + style }
  function AspectClause(aspectRatio: string): string { "Aspect ratio: " + aspectRatio }
  const TextClause := "Include high-fidelity text rendering"
  const QualityClause := "High quality, detailed rendering"

  // Edit clauses.
  const PreserveClause := "Preserve the original image style and characteristics"
  function MaskClause(area: string): string { "Focus changes on the " + area + " area" }
  const AddClause := "Add the requested elements to the image"
  const RemoveClause := "Remove the specified elements from the image"
  const RestyleClause := "Change the style while keeping the subject matter"
  const ModifyClause := "Modify the image as requested"

  // Multi-image clauses.
  const CollageClause := "Create a collage arrangement of the images"
  const OverlayClause := "Overlay the images with artistic blending"
  const SequenceClause := "Arrange the images in a sequence or timeline"
  const MergeClause := "Seamlessly merge the images into a cohesive composition"
  function OutputStyleClause(style: string): string { "Output style: " + style }

  /** A clause that is present only when its condition holds. */
  function Opt(present: bool, clause: string): seq<string>
  {
    if present then [clause] else []
  }

  function Count(b: bool): nat { if b then 1 else 0 }

  /**
   * Image generation clauses: the picture request always, then style, aspect
   * ratio, text rendering and quality, each exactly when its condition holds.
   */
  function ImageClauses(prompt: string, style: string, aspectRatio: string, includeText: bool,
                        quality: string): (parts: seq<string>)
    ensures |parts| == 1 + Count(style != "") + Count(aspectRatio != "") + Count(includeText)
                         + Count(quality == "high")
    ensures parts[0] == ImageBase(prompt)
    ensures style != "" ==> parts[1] == StyleClause(style)
    ensures StyleClause(style) in parts <==> style != ""
    ensures AspectClause(aspectRatio) in parts <==> aspectRatio != ""
    ensures TextClause in parts <==> includeText
    ensures QualityClause in parts <==> quality == "high"
    ensures aspectRatio != "" ==> parts[1 + Count(style != "")] == AspectClause(aspectRatio)
    ensures includeText ==> parts[1 + Count(style != "") + Count(aspectRatio != "")] == TextClause
    ensures quality == "high" ==> parts[|parts| - 1] == QualityClause
  {
    var parts := [ImageBase(prompt)] + Opt(style != "", StyleClause(style))
      + Opt(aspectRatio != "", AspectClause(aspectRatio)) + Opt(includeText, TextClause)
      + Opt(quality == "high", QualityClause);
    ImageClauseOpenings(prompt, style, aspectRatio);
    parts
  }

  /** Each image-generation clause opens with its own letter, so no two kinds coincide. */
  lemma ImageClauseOpenings(prompt: string, style: string, aspectRatio: string)
    ensures ImageBase(prompt)[0] == 'C' && StyleClause(style)[0] == 'S'
    ensures AspectClause(aspectRatio)[0] == 'A' && TextClause[0] == 'I' && QualityClause[0] == 'H'
  {
  }

  /** The edit-type clause; any edit type other than add, remove or style reads as a modification. */
  function EditTypeClause(editType: string): (c: string)
    ensures c in {AddClause, RemoveClause, RestyleClause, ModifyClause}
    ensures editType == "add" ==> c == AddClause
    ensures editType == "remove" ==> c == RemoveClause
    ensures editType == "style" ==> c == RestyleClause
    ensures editType !in {"add", "remove", "style"} ==> c == ModifyClause
  {
    match editType
    case "add" => AddClause
    case "remove" => RemoveClause
    case "style" => RestyleClause
    case _ => ModifyClause
  }

  /** Edit clauses: the edit prompt, the preserve clause, the mask clause, then one edit-type clause. */
  function EditClauses(editPrompt: string, preserveStyle: bool, maskArea: string, editType: string): (parts: seq<string>)
    ensures |parts| == 2 + Count(preserveStyle) + Count(maskArea != "")
    ensures parts[0] == editPrompt
    ensures preserveStyle ==> parts[1] == PreserveClause
    ensures maskArea != "" ==> parts[|parts| - 2] == MaskClause(maskArea)
    ensures parts[|parts| - 1] == EditTypeClause(editType)
  {
    [editPrompt] + Opt(preserveStyle, PreserveClause) + Opt(maskArea != "", MaskClause(maskArea))
      + [EditTypeClause(editType)]
  }

  /** The blend clause; an unknown blend mode reads as a merge. */
  function BlendClause(blendMode: string): (c: string)
    ensures c in {CollageClause, OverlayClause, SequenceClause, MergeClause}
    ensures blendMode == "collage" ==> c == CollageClause
    ensures blendMode == "overlay" ==> c == OverlayClause
    ensures blendMode == "sequence" ==> c == SequenceClause
    ensures blendMode !in {"collage", "overlay", "sequence"} ==> c == MergeClause
  {
    match blendMode
    case "collage" => CollageClause
    case "overlay" => OverlayClause
    case "sequence" => SequenceClause
    case _ => MergeClause
  }

  /** Multi-image clauses: the combine prompt, one blend clause, then the output style if given. */
  function MultiImageClauses(combinePrompt: string, blendMode: string, outputStyle: string): (parts: seq<string>)
    ensures |parts| == 2 + Count(outputStyle != "")
    ensures parts[0] == combinePrompt && parts[1] == BlendClause(blendMode)
    ensures outputStyle != "" ==> parts[2] == OutputStyleClause(outputStyle)
  {
    [combinePrompt, BlendClause(blendMode)] + Opt(outputStyle != "", OutputStyleClause(outputStyle))
  }

  /** Image generation: the clause list built by successive appends. */
  method BuildImagePrompt(prompt: string, style: string, aspectRatio: string, includeText: bool,
                          quality: string) returns (parts: seq<string>)
    ensures parts == ImageClauses(prompt, style, aspectRatio, includeText, quality)
  {
    parts := [];
    parts := parts + [ImageBase(prompt)];
    if style != "" {
      parts := parts + [StyleClause(style)];
    }
    if aspectRatio != "" {
      parts := parts + [AspectClause(aspectRatio)];
    }
    if includeText {
      parts := parts + [TextClause];
    }
    if quality == "high" {
      parts := parts + [QualityClause];
    }
  }

  /** Edit: the clause list built by successive appends and the edit-type switch. */
  method BuildEditPrompt(editPrompt: string, preserveStyle: bool, maskArea: string, editType: string)
    returns (parts: seq<string>)
    ensures parts == EditClauses(editPrompt, preserveStyle, maskArea, editType)
  {
    parts := [];
    parts := parts + [editPrompt];
    if preserveStyle {
      parts := parts + [PreserveClause];
    }
    if maskArea != "" {
      parts := parts + [MaskClause(maskArea)];
    }
    if editType == "add" {
      parts := parts + [AddClause];
    } else if editType == "remove" {
      parts := parts + [RemoveClause];
    } else if editType == "style" {
      parts := parts + [RestyleClause];
    } else {
      parts := parts + [ModifyClause];
    }
  }

  /** Multi-image: the clause list built by successive appends and the blend-mode switch. */
  method BuildMultiImagePrompt(combinePrompt: string, blendMode: string, outputStyle: string)
    returns (parts: seq<string>)
    ensures parts == MultiImageClauses(combinePrompt, blendMode, outputStyle)
  {
    parts := [];
    parts := parts + [combinePrompt];
    if blendMode == "collage" {
      parts := parts + [CollageClause];
    } else if blendMode == "overlay" {
      parts := parts + [OverlayClause];
    } else if blendMode == "sequence" {
      parts := parts + [SequenceClause];
    } else {
      parts := parts + [MergeClause];
    }
    if outputStyle != "" {
      parts := parts + [OutputStyleClause(outputStyle)];
    }
  }

  /** The video prompt: the prompt alone, or the prompt followed by an "Avoid:" clause. */
  function VideoPrompt(prompt: string, negativePrompt: string): (r: string)
    ensures prompt <= r
    ensures r == prompt <==> negativePrompt == ""
    ensures negativePrompt != "" ==> r[|prompt|..] == ". Avoid: " + negativePrompt
  {
    if negativePrompt == "" then prompt else prompt + ". Avoid: " + negativePrompt
  }

  /** With a negative prompt, the video prompt is the two-clause join of the prompt and "Avoid: ...". */
  lemma VideoPromptIsJoin(prompt: string, negativePrompt: string)
    requires negativePrompt != ""
    ensures VideoPrompt(prompt, negativePrompt) == Join([prompt, "Avoid: " + negativePrompt], Separator)
  {
    assert [prompt, "Avoid: " + negativePrompt][1..] == ["Avoid: " + negativePrompt];
  }

  /** The enhanced prompt opens with the picture request followed by its style clause. */
  lemma EnhancedPromptOpening(prompt: string, style: string, aspectRatio: string, includeText: bool,
                              quality: string)
    requires style != ""
    ensures ImageBase(prompt) + Separator + StyleClause(style)
      <= Join(ImageClauses(prompt, style, aspectRatio, includeText, quality), Separator)
  {
    JoinStartsWith(ImageClauses(prompt, style, aspectRatio, includeText, quality), Separator);
  }

  /** A request with only a prompt: default style and quality give three clauses. */
  lemma PromptOnlyEnhancedPrompt(prompt: string)
    ensures Join(ImageClauses(prompt, Tools.DefaultStyle, "", false, "high"), Separator)
      == ImageBase(prompt) + Separator + StyleClause(Tools.DefaultStyle) + Separator + QualityClause
  {
    var parts := ImageClauses(prompt, Tools.DefaultStyle, "", false, "high");
    assert parts == [ImageBase(prompt), StyleClause(Tools.DefaultStyle), QualityClause];
    assert parts[1..] == [StyleClause(Tools.DefaultStyle), QualityClause];
    assert parts[1..][1..] == [QualityClause];
    assert Join(parts[1..][1..], Separator) == QualityClause;
    var tail := Join(parts[1..], Separator);
    assert tail == StyleClause(Tools.DefaultStyle) + Separator + QualityClause;
    assert Join(parts, Separator) == ImageBase(prompt) + Separator + tail;
  }
}
