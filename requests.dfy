/**
 * The first half of each tool handler: parameter checks, input-image reads and
 * the request body handed to generate_image (src/server.py lines 130-591).
 */
module Requests {
  import opened Wrappers
  import opened Json
  import opened Host

  const MaxPromptLength := 1024

  const PromptTooLong := "Prompt cannot exceed 1024 characters."
  const NegativePromptTooLong := "Negative prompt cannot exceed 1024 characters."
  const NumImagesOutOfRange := "num_images must be between 1 and 4."
  const BadOutpaintingMode := "outpainting_mode must be 'DEFAULT' or 'PRECISE'."
  const ImagePathsOutOfRange := "image_paths list must contain 1-5 images."
  const SimilarityOutOfRange := "similarity_strength must be between 0.2 and 1.0."
  const ColorsOutOfRange := "colors list must contain 1-10 color codes."

  function InvalidColorMessage(color: string): string
  {
    "Invalid color code: " + color + ". Hex color codes must be in the format '#rrggbb'."
  }

  /** Opening an input image and base64-encoding its bytes (`b64encode(...).decode('utf8')`). */
  function ReadEncoded(files: map<string, Bytes>, codec: Codec, path: string): (r: Outcome<string>)
    ensures r.Done? <==> path in files
    ensures r.Done? ==> r.value == codec.encode(files[path])
    ensures r.Raised? ==> r.exn == Other(Unreadable(path))
  {
    match ReadFile(files, path)
    case None => Raised(Other(Unreadable(path)))
    case Some(content) => Done(codec.encode(content))
  }

  /** The `imageGenerationConfig` every kind but text-to-image sends. */
  function SingleImageConfig(height: int, width: int, cfgScale: real): Json
  {
    JObj(map["numberOfImages" := JNum(1), "height" := JNum(height), "width" := JNum(width),
             "cfgScale" := JReal(cfgScale)])
  }

  /** One image of the given size and scale, and no seed. */
  predicate FixedConfig(p: Json, height: int, width: int, cfgScale: real)
  {
    && KeysAt(p, "imageGenerationConfig") == {"numberOfImages", "height", "width", "cfgScale"}
    && Nested(p, "imageGenerationConfig", "numberOfImages") == Some(JNum(1))
    && Nested(p, "imageGenerationConfig", "height") == Some(JNum(height))
    && Nested(p, "imageGenerationConfig", "width") == Some(JNum(width))
    && Nested(p, "imageGenerationConfig", "cfgScale") == Some(JReal(cfgScale))
  }

  /** The body's top level: its `taskType` and the keys it has. */
  predicate Tagged(p: Json, taskType: string, keys: set<string>)
  {
    p.JObj? && p.fields.Keys == keys && Member(p, "taskType") == Some(JStr(taskType))
  }

  // ---------------------------------------------------------------- text_to_image

  datatype TextToImageArgs = TextToImageArgs(
    prompt: string, negativePrompt: string, height: int, width: int,
    numImages: int, cfgScale: real, seed: int, openBrowser: bool)

  function TextToImageRequest(a: TextToImageArgs): (r: Outcome<Json>)
    ensures r.Raised? <==>
      |a.prompt| > MaxPromptLength || |a.negativePrompt| > MaxPromptLength || a.numImages < 1 || a.numImages > 4
    ensures |a.prompt| > MaxPromptLength ==> r == Raised(ImageError(PromptTooLong))
    ensures |a.prompt| <= MaxPromptLength && |a.negativePrompt| > MaxPromptLength ==>
              r == Raised(ImageError(NegativePromptTooLong))
    ensures |a.prompt| <= MaxPromptLength && |a.negativePrompt| <= MaxPromptLength && !(1 <= a.numImages <= 4) ==>
              r == Raised(ImageError(NumImagesOutOfRange))
    ensures r.Done? ==>
      var p := r.value;
      && Tagged(p, "TEXT_IMAGE", {"taskType", "textToImageParams", "imageGenerationConfig"})
      && KeysAt(p, "textToImageParams") == {"text", "negativeText"}
      && Nested(p, "textToImageParams", "text") == Some(JStr(a.prompt))
      && Nested(p, "textToImageParams", "negativeText") == Some(JStr(a.negativePrompt))
      && KeysAt(p, "imageGenerationConfig") == {"numberOfImages", "height", "width", "cfgScale", "seed"}
      && Nested(p, "imageGenerationConfig", "numberOfImages") == Some(JNum(a.numImages))
      && Nested(p, "imageGenerationConfig", "height") == Some(JNum(a.height))
      && Nested(p, "imageGenerationConfig", "width") == Some(JNum(a.width))
      && Nested(p, "imageGenerationConfig", "cfgScale") == Some(JReal(a.cfgScale))
      && Nested(p, "imageGenerationConfig", "seed") == Some(JNum(a.seed))
  {
    if |a.prompt| > MaxPromptLength then Raised(ImageError(PromptTooLong))
    else if |a.negativePrompt| > MaxPromptLength then Raised(ImageError(NegativePromptTooLong))
    else if a.numImages < 1 || a.numImages > 4 then Raised(ImageError(NumImagesOutOfRange))
    else Done(JObj(map[
      "taskType" := JStr("TEXT_IMAGE"),
      "textToImageParams" := JObj(map["text" := JStr(a.prompt), "negativeText" := JStr(a.negativePrompt)]),
      "imageGenerationConfig" := JObj(map[
        "numberOfImages" := JNum(a.numImages), "height" := JNum(a.height), "width" := JNum(a.width),
        "cfgScale" := JReal(a.cfgScale), "seed" := JNum(a.seed)])]))
  }

  // ---------------------------------------------------------------- inpainting

  datatype InpaintingArgs = InpaintingArgs(
    imagePath: string, prompt: string, maskPrompt: string, negativePrompt: string,
    height: int, width: int, cfgScale: real, openBrowser: bool)

  function InpaintingRequest(files: map<string, Bytes>, codec: Codec, a: InpaintingArgs): (r: Outcome<Json>)
    ensures r.Raised? <==> a.imagePath !in files
    ensures r.Raised? ==> r.exn == Other(Unreadable(a.imagePath))
    ensures r.Done? ==>
      var p := r.value;
      && Tagged(p, "INPAINTING", {"taskType", "inPaintingParams", "imageGenerationConfig"})
      && KeysAt(p, "inPaintingParams") == {"text", "negativeText", "image", "maskPrompt"}
      && Nested(p, "inPaintingParams", "text") == Some(JStr(a.prompt))
      && Nested(p, "inPaintingParams", "negativeText") == Some(JStr(a.negativePrompt))
      && Nested(p, "inPaintingParams", "image") == Some(JStr(codec.encode(files[a.imagePath])))
      && Nested(p, "inPaintingParams", "maskPrompt") == Some(JStr(a.maskPrompt))
      && FixedConfig(p, a.height, a.width, a.cfgScale)
  {
    match ReadEncoded(files, codec, a.imagePath)
    case Raised(e) => Raised(e)
    case Done(image) => Done(JObj(map[
      "taskType" := JStr("INPAINTING"),
      "inPaintingParams" := JObj(map[
        "text" := JStr(a.prompt), "negativeText" := JStr(a.negativePrompt),
        "image" := JStr(image), "maskPrompt" := JStr(a.maskPrompt)]),
      "imageGenerationConfig" := SingleImageConfig(a.height, a.width, a.cfgScale)]))
  }

  // ---------------------------------------------------------------- outpainting

  datatype OutpaintingArgs = OutpaintingArgs(
    imagePath: string, maskImagePath: string, prompt: string, negativePrompt: string,
    outpaintingMode: string, height: int, width: int, cfgScale: real)

  function OutpaintingRequest(files: map<string, Bytes>, codec: Codec, a: OutpaintingArgs): (r: Outcome<Json>)
    ensures a.outpaintingMode !in {"DEFAULT", "PRECISE"} ==> r == Raised(ImageError(BadOutpaintingMode))
    ensures a.outpaintingMode in {"DEFAULT", "PRECISE"} ==>
              (r.Done? <==> a.imagePath in files && a.maskImagePath in files)
    ensures a.outpaintingMode in {"DEFAULT", "PRECISE"} && a.imagePath !in files ==>
              r == Raised(Other(Unreadable(a.imagePath)))
    ensures a.outpaintingMode in {"DEFAULT", "PRECISE"} && a.imagePath in files && a.maskImagePath !in files ==>
              r == Raised(Other(Unreadable(a.maskImagePath)))
    ensures r.Done? ==>
      var p := r.value;
      && Tagged(p, "OUTPAINTING", {"taskType", "outPaintingParams", "imageGenerationConfig"})
      && KeysAt(p, "outPaintingParams") == {"text", "negativeText", "image", "maskImage", "outPaintingMode"}
      && Nested(p, "outPaintingParams", "text") == Some(JStr(a.prompt))
      && Nested(p, "outPaintingParams", "negativeText") == Some(JStr(a.negativePrompt))
      && Nested(p, "outPaintingParams", "image") == Some(JStr(codec.encode(files[a.imagePath])))
      && Nested(p, "outPaintingParams", "maskImage") == Some(JStr(codec.encode(files[a.maskImagePath])))
      && Nested(p, "outPaintingParams", "outPaintingMode") == Some(JStr(a.outpaintingMode))
      && FixedConfig(p, a.height, a.width, a.cfgScale)
  {
    if a.outpaintingMode != "DEFAULT" && a.outpaintingMode != "PRECISE" then Raised(ImageError(BadOutpaintingMode))
    else match ReadEncoded(files, codec, a.imagePath)
      case Raised(e) => Raised(e)
      case Done(image) =>
        match ReadEncoded(files, codec, a.maskImagePath)
        case Raised(e) => Raised(e)
        case Done(mask) => Done(JObj(map[
          "taskType" := JStr("OUTPAINTING"),
          "outPaintingParams" := JObj(map[
            "text" := JStr(a.prompt), "negativeText" := JStr(a.negativePrompt),
            "image" := JStr(image), "maskImage" := JStr(mask),
            "outPaintingMode" := JStr(a.outpaintingMode)]),
          "imageGenerationConfig" := SingleImageConfig(a.height, a.width, a.cfgScale)]))
  }

  // ---------------------------------------------------------------- image_variation

  datatype ImageVariationArgs = ImageVariationArgs(
    imagePaths: seq<string>, prompt: string, negativePrompt: string,
    similarityStrength: real, height: int, width: int, cfgScale: real)

  /** The index of the first path that cannot be read, |paths| when all can. */
  function FirstUnreadable(files: map<string, Bytes>, paths: seq<string>): (k: nat)
    ensures k <= |paths|
    ensures forall j | 0 <= j < k :: paths[j] in files
    ensures k < |paths| ==> paths[k] !in files
  {
    if paths == [] || paths[0] !in files then 0
    else 1 + FirstUnreadable(files, paths[1..])
  }

  /** Reading and encoding the paths in order; the first unreadable one raises. */
  function EncodeFiles(files: map<string, Bytes>, codec: Codec, paths: seq<string>): (r: Outcome<seq<string>>)
    ensures r.Done? <==> FirstUnreadable(files, paths) == |paths|
    ensures r.Raised? ==> FirstUnreadable(files, paths) < |paths|
                          && r.exn == Other(Unreadable(paths[FirstUnreadable(files, paths)]))
    ensures r.Done? ==> |r.value| == |paths|
    ensures r.Done? ==> forall i | 0 <= i < |paths| :: paths[i] in files && r.value[i] == codec.encode(files[paths[i]])
  {
    if paths == [] then Done([])
    else match ReadEncoded(files, codec, paths[0])
      case Raised(e) => Raised(e)
      case Done(image) =>
        match EncodeFiles(files, codec, paths[1..])
        case Raised(e) => Raised(e)
        case Done(rest) => Done([image] + rest)
  }

  function VariationPayload(a: ImageVariationArgs, encoded: seq<string>): Json
  {
    JObj(map[
      "taskType" := JStr("IMAGE_VARIATION"),
      "imageVariationParams" := JObj(map[
        "text" := JStr(a.prompt), "negativeText" := JStr(a.negativePrompt),
        "images" := JArr(Strings(encoded)), "similarityStrength" := JReal(a.similarityStrength)]),
      "imageGenerationConfig" := SingleImageConfig(a.height, a.width, a.cfgScale)])
  }

  predicate StrengthInRange(s: real)
  {
    !(s < 0.2 || s > 1.0)
  }

  function ImageVariationRequest(files: map<string, Bytes>, codec: Codec, a: ImageVariationArgs): (r: Outcome<Json>)
    ensures !(1 <= |a.imagePaths| <= 5) ==> r == Raised(ImageError(ImagePathsOutOfRange))
    ensures 1 <= |a.imagePaths| <= 5 && !(0.2 <= a.similarityStrength <= 1.0) ==>
              r == Raised(ImageError(SimilarityOutOfRange))
    ensures 1 <= |a.imagePaths| <= 5 && 0.2 <= a.similarityStrength <= 1.0 ==>
              (r.Done? <==> forall i | 0 <= i < |a.imagePaths| :: a.imagePaths[i] in files)
    ensures 1 <= |a.imagePaths| <= 5 && 0.2 <= a.similarityStrength <= 1.0 && r.Raised? ==>
              var k := FirstUnreadable(files, a.imagePaths);
              k < |a.imagePaths| && r.exn == Other(Unreadable(a.imagePaths[k]))
    ensures r.Done? ==>
      var p := r.value;
      && Tagged(p, "IMAGE_VARIATION", {"taskType", "imageVariationParams", "imageGenerationConfig"})
      && KeysAt(p, "imageVariationParams") == {"text", "negativeText", "images", "similarityStrength"}
      && Nested(p, "imageVariationParams", "text") == Some(JStr(a.prompt))
      && Nested(p, "imageVariationParams", "negativeText") == Some(JStr(a.negativePrompt))
      && Nested(p, "imageVariationParams", "similarityStrength") == Some(JReal(a.similarityStrength))
      && FixedConfig(p, a.height, a.width, a.cfgScale)
      && Nested(p, "imageVariationParams", "images").Some?
      && Nested(p, "imageVariationParams", "images").value.JArr?
      && var images := Nested(p, "imageVariationParams", "images").value.items;
         && |images| == |a.imagePaths|
         && forall i | 0 <= i < |images| ::
              a.imagePaths[i] in files && images[i] == JStr(codec.encode(files[a.imagePaths[i]]))
  {
    if |a.imagePaths| < 1 || |a.imagePaths| > 5 then Raised(ImageError(ImagePathsOutOfRange))
    else if !StrengthInRange(a.similarityStrength) then Raised(ImageError(SimilarityOutOfRange))
    else match EncodeFiles(files, codec, a.imagePaths)
      case Raised(e) => Raised(e)
      case Done(encoded) => Done(VariationPayload(a, encoded))
  }

  /** The handler's checks and its read loop (lines 372-398). */
  method BuildImageVariationRequest(files: map<string, Bytes>, codec: Codec, a: ImageVariationArgs)
    returns (r: Outcome<Json>)
    ensures r == ImageVariationRequest(files, codec, a)
  {
    if |a.imagePaths| < 1 || |a.imagePaths| > 5 {
      return Raised(ImageError(ImagePathsOutOfRange));
    }
    if a.similarityStrength < 0.2 || a.similarityStrength > 1.0 {
      return Raised(ImageError(SimilarityOutOfRange));
    }
    var encoded: seq<string> := [];
    for i := 0 to |a.imagePaths|
      invariant |encoded| == i
      invariant forall j | 0 <= j < i :: a.imagePaths[j] in files && encoded[j] == codec.encode(files[a.imagePaths[j]])
    {
      var path := a.imagePaths[i];
      match ReadFile(files, path) {
        case None =>
          return Raised(Other(Unreadable(path)));
        case Some(content) =>
          encoded := encoded + [codec.encode(content)];
      }
    }
    var all := EncodeFiles(files, codec, a.imagePaths);
    assert FirstUnreadable(files, a.imagePaths) == |a.imagePaths|;
    assert all.value == encoded;
    return Done(VariationPayload(a, encoded));
  }

  // ---------------------------------------------------------------- image_conditioning

  datatype ImageConditioningArgs = ImageConditioningArgs(
    imagePath: string, prompt: string, negativePrompt: string, controlMode: string,
    height: int, width: int, cfgScale: real)

  function ImageConditioningRequest(files: map<string, Bytes>, codec: Codec, a: ImageConditioningArgs): (r: Outcome<Json>)
    ensures r.Raised? <==> a.imagePath !in files
    ensures r.Raised? ==> r.exn == Other(Unreadable(a.imagePath))
    ensures r.Done? ==>
      var p := r.value;
      && Tagged(p, "TEXT_IMAGE", {"taskType", "textToImageParams", "imageGenerationConfig"})
      && KeysAt(p, "textToImageParams") == {"text", "negativeText", "conditionImage", "controlMode"}
      && Nested(p, "textToImageParams", "text") == Some(JStr(a.prompt))
      && Nested(p, "textToImageParams", "negativeText") == Some(JStr(a.negativePrompt))
      && Nested(p, "textToImageParams", "conditionImage") == Some(JStr(codec.encode(files[a.imagePath])))
      && Nested(p, "textToImageParams", "controlMode") == Some(JStr(a.controlMode))
      && FixedConfig(p, a.height, a.width, a.cfgScale)
  {
    match ReadEncoded(files, codec, a.imagePath)
    case Raised(e) => Raised(e)
    case Done(image) => Done(JObj(map[
      "taskType" := JStr("TEXT_IMAGE"),
      "textToImageParams" := JObj(map[
        "text" := JStr(a.prompt), "negativeText" := JStr(a.negativePrompt),
        "conditionImage" := JStr(image), "controlMode" := JStr(a.controlMode)]),
      "imageGenerationConfig" := SingleImageConfig(a.height, a.width, a.cfgScale)]))
  }

  // ---------------------------------------------------------------- color_guided_generation

  datatype ColorGuidedArgs = ColorGuidedArgs(
    prompt: string, colors: seq<string>, referenceImagePath: Option<string>,
    negativePrompt: string, height: int, width: int, cfgScale: real)

  /** `color.startswith("#") and len(color) == 7`; the six characters after '#' are not checked. */
  predicate IsColorCode(color: string)
  {
    |color| >= 1 && color[0] == '#' && |color| == 7
  }

  /** The index of the first colour that fails the check, |colors| when none does. */
  function FirstInvalidColor(colors: seq<string>): (k: nat)
    ensures k <= |colors|
    ensures forall j | 0 <= j < k :: IsColorCode(colors[j])
    ensures k < |colors| ==> !IsColorCode(colors[k])
  {
    if colors == [] || !IsColorCode(colors[0]) then 0
    else 1 + FirstInvalidColor(colors[1..])
  }

  /** `if reference_image_path:` — given and not empty. */
  predicate HasReference(a: ColorGuidedArgs)
  {
    a.referenceImagePath.Some? && a.referenceImagePath.value != ""
  }

  function ColorParams(a: ColorGuidedArgs, reference: Option<string>): map<string, Json>
  {
    var params := map["text" := JStr(a.prompt), "negativeText" := JStr(a.negativePrompt),
                      "colors" := JArr(Strings(a.colors))];
    if reference.Some? then params["referenceImage" := JStr(reference.value)] else params
  }

  function ColorGuidedPayload(a: ColorGuidedArgs, params: map<string, Json>): Json
  {
    JObj(map[
      "taskType" := JStr("COLOR_GUIDED_GENERATION"),
      "colorGuidedGenerationParams" := JObj(params),
      "imageGenerationConfig" := SingleImageConfig(a.height, a.width, a.cfgScale)])
  }

  function ColorGuidedRequest(files: map<string, Bytes>, codec: Codec, a: ColorGuidedArgs): (r: Outcome<Json>)
    ensures !(1 <= |a.colors| <= 10) ==> r == Raised(ImageError(ColorsOutOfRange))
    ensures 1 <= |a.colors| <= 10 && FirstInvalidColor(a.colors) < |a.colors| ==>
              r == Raised(ImageError(InvalidColorMessage(a.colors[FirstInvalidColor(a.colors)])))
    ensures r.Done? ==> 1 <= |a.colors| <= 10 && forall i | 0 <= i < |a.colors| :: IsColorCode(a.colors[i])
    ensures 1 <= |a.colors| <= 10 && FirstInvalidColor(a.colors) == |a.colors| ==>
              (r.Done? <==> !HasReference(a) || a.referenceImagePath.value in files)
    ensures 1 <= |a.colors| <= 10 && FirstInvalidColor(a.colors) == |a.colors| && HasReference(a)
            && a.referenceImagePath.value !in files ==>
              r == Raised(Other(Unreadable(a.referenceImagePath.value)))
    ensures r.Done? ==>
      var p := r.value;
      && Tagged(p, "COLOR_GUIDED_GENERATION", {"taskType", "colorGuidedGenerationParams", "imageGenerationConfig"})
      && KeysAt(p, "colorGuidedGenerationParams") ==
           {"text", "negativeText", "colors"} + (if HasReference(a) then {"referenceImage"} else {})
      && Nested(p, "colorGuidedGenerationParams", "text") == Some(JStr(a.prompt))
      && Nested(p, "colorGuidedGenerationParams", "negativeText") == Some(JStr(a.negativePrompt))
      && Nested(p, "colorGuidedGenerationParams", "colors") == Some(JArr(Strings(a.colors)))
      && (HasReference(a) ==>
            Nested(p, "colorGuidedGenerationParams", "referenceImage")
              == Some(JStr(codec.encode(files[a.referenceImagePath.value]))))
      && FixedConfig(p, a.height, a.width, a.cfgScale)
  {
    if |a.colors| < 1 || |a.colors| > 10 then Raised(ImageError(ColorsOutOfRange))
    else if FirstInvalidColor(a.colors) < |a.colors| then
      Raised(ImageError(InvalidColorMessage(a.colors[FirstInvalidColor(a.colors)])))
    else if !HasReference(a) then Done(ColorGuidedPayload(a, ColorParams(a, None)))
    else match ReadEncoded(files, codec, a.referenceImagePath.value)
      case Raised(e) => Raised(e)
      case Done(image) => Done(ColorGuidedPayload(a, ColorParams(a, Some(image))))
  }

  /** The handler's checks, its colour loop and its in-place dict update (lines 515-544). */
  method BuildColorGuidedRequest(files: map<string, Bytes>, codec: Codec, a: ColorGuidedArgs)
    returns (r: Outcome<Json>)
    ensures r == ColorGuidedRequest(files, codec, a)
  {
    if |a.colors| < 1 || |a.colors| > 10 {
      return Raised(ImageError(ColorsOutOfRange));
    }
    for i := 0 to |a.colors|
      invariant forall j | 0 <= j < i :: IsColorCode(a.colors[j])
    {
      var color := a.colors[i];
      if !(|color| >= 1 && color[0] == '#') || |color| != 7 {
        return Raised(ImageError(InvalidColorMessage(color)));
      }
    }
    var params := map["text" := JStr(a.prompt), "negativeText" := JStr(a.negativePrompt),
                      "colors" := JArr(Strings(a.colors))];
    if a.referenceImagePath.Some? && a.referenceImagePath.value != "" {
      match ReadFile(files, a.referenceImagePath.value) {
        case None =>
          return Raised(Other(Unreadable(a.referenceImagePath.value)));
        case Some(content) =>
          params := params["referenceImage" := JStr(codec.encode(content))];
      }
    }
    return Done(ColorGuidedPayload(a, params));
  }

  /** The format check looks at '#' and the length only: "#zzzzzz" passes, "ff8080" does not. */
  lemma NoHexDigitCheck()
    ensures IsColorCode("#zzzzzz")
    ensures !IsColorCode("ff8080") && !IsColorCode("#ff808") && !IsColorCode("#ff80800")
  {
  }

  // ---------------------------------------------------------------- background_removal

  datatype BackgroundRemovalArgs = BackgroundRemovalArgs(imagePath: string)

  function BackgroundRemovalRequest(files: map<string, Bytes>, codec: Codec, a: BackgroundRemovalArgs): (r: Outcome<Json>)
    ensures r.Raised? <==> a.imagePath !in files
    ensures r.Raised? ==> r.exn == Other(Unreadable(a.imagePath))
    ensures r.Done? ==>
      && Tagged(r.value, "BACKGROUND_REMOVAL", {"taskType", "backgroundRemovalParams"})
      && KeysAt(r.value, "backgroundRemovalParams") == {"image"}
      && Nested(r.value, "backgroundRemovalParams", "image") == Some(JStr(codec.encode(files[a.imagePath])))
      && Member(r.value, "imageGenerationConfig") == None
  {
    match ReadEncoded(files, codec, a.imagePath)
    case Raised(e) => Raised(e)
    case Done(image) => Done(JObj(map[
      "taskType" := JStr("BACKGROUND_REMOVAL"),
      "backgroundRemovalParams" := JObj(map["image" := JStr(image)])]))
  }
}
