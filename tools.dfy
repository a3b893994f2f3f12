/**
 * The seven tool handlers: request, generate_image, save_image, and the
 * translation of every exception into an McpError (src/server.py lines 128-610).
 */
module Tools {
  import opened Wrappers
  import opened Json
  import opened Host
  import opened Generation
  import opened Storage
  import opened Requests

  datatype Tool =
    | TextToImageTool | InpaintingTool | OutpaintingTool | ImageVariationTool
    | ImageConditioningTool | ColorGuidedTool | BackgroundRemovalTool

  /** The `prefix` each handler passes to save_image. */
  function Prefix(t: Tool): string
  {
    match t
    case TextToImageTool => "text2img"
    case InpaintingTool => "inpaint"
    case OutpaintingTool => "outpaint"
    case ImageVariationTool => "variation"
    case ImageConditioningTool => "condition"
    case ColorGuidedTool => "color_guided"
    case BackgroundRemovalTool => "bg_removed"
  }

  /** What follows "Error occurred while " in each handler's generic `except`. */
  function Action(t: Tool): string
  {
    match t
    case TextToImageTool => "generating image"
    case InpaintingTool => "inpainting"
    case OutpaintingTool => "outpainting"
    case ImageVariationTool => "image variation"
    case ImageConditioningTool => "image conditioning"
    case ColorGuidedTool => "generating image using color palette"
    case BackgroundRemovalTool => "removing background"
  }

  /** The start of each handler's success message. */
  function SuccessText(t: Tool): string
  {
    match t
    case TextToImageTool => "Image generated successfully."
    case InpaintingTool => "Inpainting completed successfully."
    case OutpaintingTool => "Outpainting completed successfully."
    case ImageVariationTool => "Image variation completed successfully."
    case ImageConditioningTool => "Image conditioning completed successfully."
    case ColorGuidedTool => "Image generated successfully using color palette."
    case BackgroundRemovalTool => "Background removed successfully."
  }

  datatype McpError = McpError(message: string)

  /** The dict a handler returns. */
  datatype ToolOutput = ToolOutput(imagePath: string, message: string)

  /**
   * One handler call as seen from outside: the body sent to the model (None
   * when the model was never called), the save it made, and its answer.
   */
  datatype Run = Run(sent: Option<Json>, saved: Option<Saved>, result: Result<ToolOutput, McpError>)

  /** The two `except` blocks of every handler. */
  function Translate(env: Env, t: Tool, e: Exception): (r: McpError)
    ensures e.ImageError? ==> r.message == e.message
    ensures e.Other? ==> r.message == "Error occurred while " + Action(t) + ": " + env.describe(e.fault)
  {
    match e
    case ImageError(message) => McpError(message)
    case Other(fault) => McpError("Error occurred while " + Action(t) + ": " + env.describe(fault))
  }

  /** The shared tail of every handler: generate, save, answer; any exception becomes an McpError. */
  function Lifecycle(env: Env, request: Outcome<Json>, t: Tool, openBrowser: bool): (run: Run)
    ensures request.Raised? ==> run == Run(None, None, Failure(Translate(env, t, request.exn)))
    ensures request.Done? ==> run.sent == Some(request.value)
    ensures run.result.Success? <==> run.saved.Some?
    ensures run.saved.Some? ==>
              request.Done? && GenerateImage(env, request.value) == Done(run.saved.value.written)
              && run.saved.value == SaveImage(env, run.saved.value.written, Prefix(t), openBrowser)
    ensures run.result.Success? ==>
              var path := run.saved.value.info.imagePath;
              run.result.value == ToolOutput(path, SuccessText(t) + " Saved location: " + path)
    ensures request.Done? && GenerateImage(env, request.value).Done? ==>
              run.saved == Some(SaveImage(env, GenerateImage(env, request.value).value, Prefix(t), openBrowser))
    ensures request.Done? && GenerateImage(env, request.value).Raised? ==>
              run.result == Failure(Translate(env, t, GenerateImage(env, request.value).exn))
  {
    match request
    case Raised(e) => Run(None, None, Failure(Translate(env, t, e)))
    case Done(payload) =>
      match GenerateImage(env, payload)
      case Raised(e) => Run(Some(payload), None, Failure(Translate(env, t, e)))
      case Done(bytes) =>
        var saved := SaveImage(env, bytes, Prefix(t), openBrowser);
        var path := saved.info.imagePath;
        Run(Some(payload), Some(saved), Success(ToolOutput(path, SuccessText(t) + " Saved location: " + path)))
  }

  // ---------------------------------------------------------------- the handlers

  function TextToImage(env: Env, a: TextToImageArgs): (run: Run)
    ensures run.sent.None? <==> TextToImageRequest(a).Raised?
  {
    Lifecycle(env, TextToImageRequest(a), TextToImageTool, a.openBrowser)
  }

  function Inpainting(env: Env, a: InpaintingArgs): (run: Run)
    ensures run.sent.None? <==> a.imagePath !in env.files
  {
    Lifecycle(env, InpaintingRequest(env.files, env.codec, a), InpaintingTool, a.openBrowser)
  }

  function Outpainting(env: Env, a: OutpaintingArgs): (run: Run)
    ensures run.sent.None? <==>
      a.outpaintingMode !in {"DEFAULT", "PRECISE"} || a.imagePath !in env.files || a.maskImagePath !in env.files
  {
    Lifecycle(env, OutpaintingRequest(env.files, env.codec, a), OutpaintingTool, true)
  }

  method ImageVariation(env: Env, a: ImageVariationArgs) returns (run: Run)
    ensures run == Lifecycle(env, ImageVariationRequest(env.files, env.codec, a), ImageVariationTool, true)
  {
    var request := BuildImageVariationRequest(env.files, env.codec, a);
    run := Lifecycle(env, request, ImageVariationTool, true);
  }

  function ImageConditioning(env: Env, a: ImageConditioningArgs): (run: Run)
    ensures run.sent.None? <==> a.imagePath !in env.files
  {
    Lifecycle(env, ImageConditioningRequest(env.files, env.codec, a), ImageConditioningTool, true)
  }

  method ColorGuidedGeneration(env: Env, a: ColorGuidedArgs) returns (run: Run)
    ensures run == Lifecycle(env, ColorGuidedRequest(env.files, env.codec, a), ColorGuidedTool, true)
  {
    var request := BuildColorGuidedRequest(env.files, env.codec, a);
    run := Lifecycle(env, request, ColorGuidedTool, true);
  }

  function BackgroundRemoval(env: Env, a: BackgroundRemovalArgs): (run: Run)
    ensures run.sent.None? <==> a.imagePath !in env.files
  {
    Lifecycle(env, BackgroundRemovalRequest(env.files, env.codec, a), BackgroundRemovalTool, true)
  }

  // ---------------------------------------------------------------- whole-call properties

  /** Every handler whose request was built saves exactly the bytes the model encoded, under its own prefix. */
  lemma LifecycleEndToEnd(env: Env, t: Tool, payload: Json, openBrowser: bool, b: Bytes)
    requires ValidCodec(env.codec)
    requires env.model(payload) == Answered(JObj(map["images" := JArr([JStr(env.codec.encode(b))])]))
    ensures var run := Lifecycle(env, Done(payload), t, openBrowser);
      var path := Join(env.imageDir, FileName(Prefix(t), env.timestamp));
      && run.sent == Some(payload)
      && run.saved == Some(SaveImage(env, b, Prefix(t), openBrowser))
      && run.result == Success(ToolOutput(path, SuccessText(t) + " Saved location: " + path))
  {
    GenerateRoundTrip(env, payload, b);
  }

  /**
   * text_to_image against a model that answers with the encoding of `b` and no
   * error: the handler saves exactly `b` as IMAGE_DIR/text2img_<timestamp>.png
   * and reports that path.
   */
  lemma TextToImageEndToEnd(env: Env, a: TextToImageArgs, b: Bytes)
    requires ValidCodec(env.codec)
    requires TextToImageRequest(a).Done?
    requires env.model(TextToImageRequest(a).value) == Answered(JObj(map["images" := JArr([JStr(env.codec.encode(b))])]))
    ensures var run := TextToImage(env, a);
      var path := Join(env.imageDir, "text2img_" + env.timestamp + ".png");
      && run.sent == Some(TextToImageRequest(a).value)
      && run.saved.Some? && run.saved.value.written == b
      && run.result == Success(ToolOutput(path, "Image generated successfully. Saved location: " + path))
  {
    LifecycleEndToEnd(env, TextToImageTool, TextToImageRequest(a).value, a.openBrowser, b);
    TextToImageTexts(env.timestamp);
  }

  lemma TextToImageTexts(timestamp: string)
    ensures FileName(Prefix(TextToImageTool), timestamp) == "text2img_" + timestamp + ".png"
    ensures SuccessText(TextToImageTool) + " Saved location: " == "Image generated successfully. Saved location: "
  {
  }

  /** A client error reaches the caller as "Client error occurred: <message>", unprefixed, and nothing is saved. */
  lemma ClientErrorReachesCaller(env: Env, t: Tool, payload: Json, openBrowser: bool, message: string)
    requires env.model(payload) == ClientError(message)
    ensures var run := Lifecycle(env, Done(payload), t, openBrowser);
      run.saved == None && run.result == Failure(McpError("Client error occurred: " + message))
  {
  }

  /** A reply without `images` ends in the handler's generic message, and nothing is saved. */
  lemma ReplyWithoutImages(env: Env, t: Tool, payload: Json, openBrowser: bool, fields: map<string, Json>)
    requires env.model(payload) == Answered(JObj(fields)) && "images" !in fields
    ensures var run := Lifecycle(env, Done(payload), t, openBrowser);
      && run.saved == None
      && run.result == Failure(McpError("Error occurred while " + Action(t) + ": " + env.describe(ImagesNotSubscriptable(None))))
  {
  }

  /** inpainting on a path that cannot be read never calls the model. */
  lemma InpaintingUnreadableImage(env: Env, a: InpaintingArgs)
    requires a.imagePath !in env.files
    ensures var run := Inpainting(env, a);
      && run.sent == None && run.saved == None
      && run.result == Failure(McpError("Error occurred while inpainting: " + env.describe(Unreadable(a.imagePath))))
  {
    assert "Error occurred while " + Action(InpaintingTool) + ": " == "Error occurred while inpainting: ";
  }

  /** image_variation with two paths, the second unreadable, aborts before the model is called. */
  lemma VariationSecondPathUnreadable(env: Env, a: ImageVariationArgs)
    requires |a.imagePaths| == 2 && 0.2 <= a.similarityStrength <= 1.0
    requires a.imagePaths[0] in env.files && a.imagePaths[1] !in env.files
    ensures var run := Lifecycle(env, ImageVariationRequest(env.files, env.codec, a), ImageVariationTool, true);
      && run.sent == None && run.saved == None
      && run.result == Failure(McpError("Error occurred while image variation: " + env.describe(Unreadable(a.imagePaths[1]))))
  {
    assert FirstUnreadable(env.files, a.imagePaths) == 1;
    assert "Error occurred while " + Action(ImageVariationTool) + ": " == "Error occurred while image variation: ";
  }

  /** Handlers never overwrite each other's files: their prefixes tell them apart within one second. */
  lemma ToolsNeverShareFiles(env: Env, t1: Tool, t2: Tool)
    requires t1 != t2
    ensures FileName(Prefix(t1), env.timestamp) != FileName(Prefix(t2), env.timestamp)
  {
    DistinctPrefixesDistinctNames(Prefix(t1), Prefix(t2), env.timestamp);
  }

  lemma PrefixIsOneComponent(t: Tool)
    ensures '/' !in Prefix(t)
  {
  }

  /** Every handler's saved file is named `<prefix>_<timestamp>.png` and is the last component of the path it reports. */
  lemma SavedFileNaming(env: Env, t: Tool, request: Outcome<Json>, openBrowser: bool)
    requires '/' !in env.timestamp
    ensures var run := Lifecycle(env, request, t, openBrowser);
      run.result.Success? ==>
        && run.saved.value.info.filename == Prefix(t) + "_" + env.timestamp + ".png"
        && BaseName(run.result.value.imagePath) == run.saved.value.info.filename
  {
    var run := Lifecycle(env, request, t, openBrowser);
    if run.result.Success? {
      PrefixIsOneComponent(t);
      SaveImageDescriptor(env, run.saved.value.written, Prefix(t), openBrowser);
    }
  }
}
