/**
 * Where generated files go and what they are called, and the loops that walk
 * a response, count its images and collect the paths that were written.
 * A write's outcome is given: `writes[k]` says whether creating the directory
 * and writing the k-th image both succeeded (an image past the end of the
 * list counts as a failed write).
 */
module Artifacts {
  import opened Wrappers
  import opened Genai
  import opened Text

  /** `filepath.Join(dir, name)`, without path cleaning. */
  function PathJoin(dir: string, name: string): string
  {
    dir + "/" + name
  }

  /** Images go to the requested directory, or else to the configured one. */
  function ImageOutputDir(requested: string, configured: string): (dir: string)
    ensures requested != "" ==> dir == requested
    ensures requested == "" ==> dir == configured
  {
    if requested == "" then configured else requested
  }

  /** `<prefix>_<tag>_<timestamp>_<index>.png` */
  function ImageFileName(prefix: string, tag: string, timestamp: string, index: nat): (name: string)
    ensures prefix + "_" + tag + "_" + timestamp + "_" <= name
    ensures |name| >= 4 && name[|name| - 4..] == ".png"
  {
    prefix + "_" + tag + "_" + timestamp + "_" + NatToString(index) + ".png"
  }

  /** Two images of one call get the same name only when their part indices agree. */
  lemma ImageFileNamesDistinct(prefix: string, tag: string, timestamp: string, i: nat, j: nat)
    requires ImageFileName(prefix, tag, timestamp, i) == ImageFileName(prefix, tag, timestamp, j)
    ensures i == j
  {
    var head := prefix + "_" + tag + "_" + timestamp + "_";
    var a, b := ImageFileName(prefix, tag, timestamp, i), ImageFileName(prefix, tag, timestamp, j);
    assert a == head + NatToString(i) + ".png";
    assert b == head + NatToString(j) + ".png";
    assert a[|head|..|a| - 4] == NatToString(i);
    assert b[|head|..|b| - 4] == NatToString(j);
    NatToStringRoundTrip(i);
    NatToStringRoundTrip(j);
  }

  function WriteOk(writes: seq<bool>, k: nat): bool
  {
    k < |writes| && writes[k]
  }

  /** Indices, within one candidate, of the parts that carry image data, in order. */
  function PartSlots(parts: seq<Part>): seq<nat>
  {
    if parts == [] then []
    else
      var n := |parts| - 1;
      PartSlots(parts[..n]) + (if HasImage(parts[n]) then [n] else [])
  }

  /**
   * The slots are exactly the image parts: each names an image part, they
   * increase, and no image part is missed.
   */
  lemma {:induction false} PartSlotsExact(parts: seq<Part>)
    ensures |PartSlots(parts)| <= |parts|
    ensures forall k :: 0 <= k < |PartSlots(parts)| ==>
      PartSlots(parts)[k] < |parts| && HasImage(parts[PartSlots(parts)[k]])
    ensures forall k, l :: 0 <= k < l < |PartSlots(parts)| ==> PartSlots(parts)[k] < PartSlots(parts)[l]
    ensures forall i :: 0 <= i < |parts| && HasImage(parts[i]) ==> i in PartSlots(parts)
  {
    if parts != [] {
      var n := |parts| - 1;
      PartSlotsExact(parts[..n]);
      var rest := PartSlots(parts[..n]);
      assert forall k :: 0 <= k < |rest| ==> parts[..n][rest[k]] == parts[rest[k]];
      assert forall i :: 0 <= i < n ==> parts[..n][i] == parts[i];
    }
  }

  lemma PartSlotsSnoc(parts: seq<Part>, i: nat)
    requires i < |parts|
    ensures PartSlots(parts[..i + 1]) == PartSlots(parts[..i]) + (if HasImage(parts[i]) then [i] else [])
    ensures PartTexts(parts[..i + 1]) == PartTexts(parts[..i]) + (if parts[i].text != "" then [parts[i].text] else [])
  {
    assert parts[..i + 1][..i] == parts[..i];
  }

  lemma SlotsSnoc(candidates: seq<Candidate>, c: nat)
    requires c < |candidates|
    ensures Slots(candidates[..c + 1]) == Slots(candidates[..c]) + CandidateSlots(candidates[c])
    ensures Texts(candidates[..c + 1]) == Texts(candidates[..c]) + CandidateTexts(candidates[c])
  {
    assert candidates[..c + 1][..c] == candidates[..c];
  }

  function CandidateSlots(c: Candidate): seq<nat>
  {
    match c.content
    case None => []
    case Some(parts) => PartSlots(parts)
  }

  /** Part indices of every image part of every candidate, in iteration order. */
  function Slots(candidates: seq<Candidate>): seq<nat>
  {
    if candidates == [] then []
    else Slots(candidates[..|candidates| - 1]) + CandidateSlots(candidates[|candidates| - 1])
  }

  /** The non-empty text fragments of a candidate's parts, in order. */
  function PartTexts(parts: seq<Part>): seq<string>
  {
    if parts == [] then []
    else
      var n := |parts| - 1;
      PartTexts(parts[..n]) + (if parts[n].text != "" then [parts[n].text] else [])
  }

  function CandidateTexts(c: Candidate): seq<string>
  {
    match c.content
    case None => []
    case Some(parts) => PartTexts(parts)
  }

  function Texts(candidates: seq<Candidate>): seq<string>
  {
    if candidates == [] then []
    else Texts(candidates[..|candidates| - 1]) + CandidateTexts(candidates[|candidates| - 1])
  }

  /** The last element, or the empty string for an empty list. */
  function Last(xs: seq<string>): string
  {
    if xs == [] then "" else xs[|xs| - 1]
  }

  /**
   * The paths recorded for the images at `slots`: the k-th image is recorded
   * only when there is a directory and its write succeeded.
   */
  function SavedImages(dir: string, prefix: string, tag: string, timestamp: string,
                       slots: seq<nat>, writes: seq<bool>): seq<string>
  {
    if slots == [] then []
    else
      var k := |slots| - 1;
      SavedImages(dir, prefix, tag, timestamp, slots[..k], writes)
        + (if dir != "" && WriteOk(writes, k) then [PathJoin(dir, ImageFileName(prefix, tag, timestamp, slots[k]))] else [])
  }

  /** Number of successful writes among the first n outcomes. */
  function Successes(writes: seq<bool>, n: nat): nat
  {
    if n == 0 then 0 else Successes(writes, n - 1) + (if WriteOk(writes, n - 1) then 1 else 0)
  }

  /** One path per successful write, none without a directory, never more than the images. */
  lemma {:induction false} SavedImagesCount(dir: string, prefix: string, tag: string, timestamp: string,
                                            slots: seq<nat>, writes: seq<bool>)
    ensures |SavedImages(dir, prefix, tag, timestamp, slots, writes)|
      == if dir == "" then 0 else Successes(writes, |slots|)
    ensures |SavedImages(dir, prefix, tag, timestamp, slots, writes)| <= |slots|
  {
    if slots != [] {
      SavedImagesCount(dir, prefix, tag, timestamp, slots[..|slots| - 1], writes);
    }
  }

  /** Every recorded path names one of the images in the directory. */
  lemma {:induction false} SavedImagesNamed(dir: string, prefix: string, tag: string, timestamp: string,
                                            slots: seq<nat>, writes: seq<bool>, path: string)
    requires path in SavedImages(dir, prefix, tag, timestamp, slots, writes)
    ensures dir != ""
    ensures exists k :: (0 <= k < |slots| && WriteOk(writes, k)
      && path == PathJoin(dir, ImageFileName(prefix, tag, timestamp, slots[k])))
  {
    var k := |slots| - 1;
    var rest := SavedImages(dir, prefix, tag, timestamp, slots[..k], writes);
    if path in rest {
      SavedImagesNamed(dir, prefix, tag, timestamp, slots[..k], writes, path);
      var j :| 0 <= j < k && WriteOk(writes, j)
        && path == PathJoin(dir, ImageFileName(prefix, tag, timestamp, slots[..k][j]));
      assert slots[..k][j] == slots[j];
    }
  }

  /** Recording one more image extends the recorded paths by at most that image's path. */
  lemma SavedImagesSnoc(dir: string, prefix: string, tag: string, timestamp: string,
                        slots: seq<nat>, i: nat, writes: seq<bool>)
    ensures SavedImages(dir, prefix, tag, timestamp, slots + [i], writes)
      == SavedImages(dir, prefix, tag, timestamp, slots, writes)
         + (if dir != "" && WriteOk(writes, |slots|) then [PathJoin(dir, ImageFileName(prefix, tag, timestamp, i))] else [])
  {
    assert (slots + [i])[..|slots|] == slots;
  }

  /**
   * The file index is the part's index within its candidate, so two candidates
   * that each carry an image as their first part record the same path twice.
   */
  lemma CandidatesShareFileNames(dir: string, prefix: string, tag: string, timestamp: string, data: Bytes)
    requires dir != "" && |data| > 0
    ensures var c := Candidate(Some([Part("", Some(data))]));
      var path := PathJoin(dir, ImageFileName(prefix, tag, timestamp, 0));
      SavedImages(dir, prefix, tag, timestamp, Slots([c, c]), [true, true]) == [path, path]
  {
    var part := Part("", Some(data));
    var c := Candidate(Some([part]));
    assert HasImage(part);
    assert [part][..0] == [];
    assert PartSlots([part]) == PartSlots([]) + [0];
    assert CandidateSlots(c) == [0];
    assert [c, c][..1] == [c];
    assert [c][..0] == [];
    assert Slots([c]) == [0];
    assert Slots([c, c]) == [0, 0];
    var path := PathJoin(dir, ImageFileName(prefix, tag, timestamp, 0));
    assert [0, 0][..1] == [0];
    assert [0][..0] == [];
    assert SavedImages(dir, prefix, tag, timestamp, [0], [true, true]) == [path];
  }

  /**
   * The inner loop over one candidate's parts, continuing from the state left by
   * the earlier candidates (`before` and `textsBefore` are what they contributed).
   */
  method SaveCandidateImages(parts: seq<Part>, dir: string, prefix: string, tag: string, timestamp: string,
                             writes: seq<bool>, ghost before: seq<nat>, ghost textsBefore: seq<string>,
                             count0: nat, files0: seq<string>, last0: string, text0: string)
    returns (count: nat, files: seq<string>, last: string, text: string)
    requires count0 == |before|
    requires files0 == SavedImages(dir, prefix, tag, timestamp, before, writes)
    requires last0 == Last(files0) && text0 == Last(textsBefore)
    ensures count == |before + PartSlots(parts)|
    ensures files == SavedImages(dir, prefix, tag, timestamp, before + PartSlots(parts), writes)
    ensures last == Last(files)
    ensures text == Last(textsBefore + PartTexts(parts))
  {
    count, files, last, text := count0, files0, last0, text0;
    var i := 0;
    assert before + PartSlots(parts[..0]) == before;
    assert textsBefore + PartTexts(parts[..0]) == textsBefore;
    while i < |parts|
      invariant i <= |parts|
      invariant count == |before + PartSlots(parts[..i])|
      invariant files == SavedImages(dir, prefix, tag, timestamp, before + PartSlots(parts[..i]), writes)
      invariant last == Last(files)
      invariant text == Last(textsBefore + PartTexts(parts[..i]))
    {
      var part := parts[i];
      PartSlotsSnoc(parts, i);
      ghost var slots := PartSlots(parts[..i]);
      ghost var texts := PartTexts(parts[..i]);
      if part.text != "" {
        text := part.text;
        assert textsBefore + PartTexts(parts[..i + 1]) == (textsBefore + texts) + [part.text];
      } else {
        assert textsBefore + PartTexts(parts[..i + 1]) == textsBefore + texts;
      }
      if HasImage(part) {
        assert before + PartSlots(parts[..i + 1]) == (before + slots) + [i];
        SavedImagesSnoc(dir, prefix, tag, timestamp, before + slots, i, writes);
        if dir != "" {
          if WriteOk(writes, count) {
            var path := PathJoin(dir, ImageFileName(prefix, tag, timestamp, i));
            files := files + [path];
            last := path;
          }
        }
        count := count + 1;
      } else {
        assert before + PartSlots(parts[..i + 1]) == before + slots;
      }
      i := i + 1;
    }
    assert parts[..|parts|] == parts;
  }

  /**
   * The response loop of the Gemini image tools: every image part is counted,
   * and its path is recorded only after a successful write. Also returns the
   * last recorded path and the last non-empty text fragment.
   */
  method SaveResponseImages(candidates: seq<Candidate>, dir: string, prefix: string, tag: string,
                            timestamp: string, writes: seq<bool>)
    returns (imagesCreated: nat, savedFiles: seq<string>, lastSaved: string, text: string)
    ensures imagesCreated == |Slots(candidates)|
    ensures savedFiles == SavedImages(dir, prefix, tag, timestamp, Slots(candidates), writes)
    ensures lastSaved == Last(savedFiles)
    ensures text == Last(Texts(candidates))
  {
    imagesCreated, savedFiles, lastSaved, text := 0, [], "", "";
    var c := 0;
    while c < |candidates|
      invariant c <= |candidates|
      invariant imagesCreated == |Slots(candidates[..c])|
      invariant savedFiles == SavedImages(dir, prefix, tag, timestamp, Slots(candidates[..c]), writes)
      invariant lastSaved == Last(savedFiles)
      invariant text == Last(Texts(candidates[..c]))
    {
      var candidate := candidates[c];
      SlotsSnoc(candidates, c);
      ghost var slots := Slots(candidates[..c]);
      ghost var texts := Texts(candidates[..c]);
      if candidate.content.Some? {
        imagesCreated, savedFiles, lastSaved, text := SaveCandidateImages(
          candidate.content.value, dir, prefix, tag, timestamp, writes,
          slots, texts, imagesCreated, savedFiles, lastSaved, text);
      } else {
        assert slots + CandidateSlots(candidate) == slots;
        assert texts + CandidateTexts(candidate) == texts;
      }
      c := c + 1;
    }
    assert candidates[..|candidates|] == candidates;
  }

  /** `imagen_<timestamp>_<index>.png` */
  function ImagenFileName(timestamp: string, index: nat): (name: string)
    ensures "imagen_" + timestamp + "_" <= name
    ensures |name| >= 4 && name[|name| - 4..] == ".png"
  {
    "imagen_" + timestamp + "_" + NatToString(index) + ".png"
  }

  /**
   * The paths recorded by the Imagen tool: image i is saved only with a
   * requested directory, a present and non-empty image, and a successful write.
   */
  function ImagenSaved(images: seq<GeneratedImage>, dir: string, timestamp: string, writes: seq<bool>): seq<string>
  {
    if images == [] then []
    else
      var i := |images| - 1;
      ImagenSaved(images[..i], dir, timestamp, writes)
        + (if dir != "" && images[i].image.Some? && |images[i].image.value| > 0 && WriteOk(writes, i)
           then [PathJoin(dir, ImagenFileName(timestamp, i))] else [])
  }

  /** Every Imagen path is in the requested directory and belongs to a non-empty image. */
  lemma {:induction false} ImagenSavedWellFormed(images: seq<GeneratedImage>, dir: string, timestamp: string,
                                                 writes: seq<bool>)
    ensures |ImagenSaved(images, dir, timestamp, writes)| <= |images|
    ensures dir == "" ==> ImagenSaved(images, dir, timestamp, writes) == []
    ensures forall path :: path in ImagenSaved(images, dir, timestamp, writes) ==>
      exists i :: (0 <= i < |images| && images[i].image.Some? && |images[i].image.value| > 0
        && path == PathJoin(dir, ImagenFileName(timestamp, i)))
  {
    if images != [] {
      var i := |images| - 1;
      ImagenSavedWellFormed(images[..i], dir, timestamp, writes);
      forall path | path in ImagenSaved(images[..i], dir, timestamp, writes)
        ensures exists j :: (0 <= j < |images| && images[j].image.Some? && |images[j].image.value| > 0
          && path == PathJoin(dir, ImagenFileName(timestamp, j)))
      {
        var j :| 0 <= j < i && images[..i][j].image.Some? && |images[..i][j].image.value| > 0
          && path == PathJoin(dir, ImagenFileName(timestamp, j));
        assert images[..i][j] == images[j];
      }
    }
  }

  /** The Imagen tool's save loop. */
  method SaveGeneratedImages(images: seq<GeneratedImage>, dir: string, timestamp: string, writes: seq<bool>)
    returns (savedFiles: seq<string>)
    ensures savedFiles == ImagenSaved(images, dir, timestamp, writes)
  {
    savedFiles := [];
    var i := 0;
    while i < |images|
      invariant i <= |images|
      invariant savedFiles == ImagenSaved(images[..i], dir, timestamp, writes)
    {
      assert images[..i + 1][..i] == images[..i];
      var generated := images[i];
      if generated.image.Some? {
        if dir != "" {
          var path := PathJoin(dir, ImagenFileName(timestamp, i));
          if WriteOk(writes, i) {
            if |generated.image.value| > 0 {
              savedFiles := savedFiles + [path];
            }
          }
        }
      }
      i := i + 1;
    }
    assert images[..|images|] == images;
  }
}
