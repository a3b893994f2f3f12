# Nova Canvas MCP server: the request lifecycle, modelled in Dafny

The server exposes seven image tools to an MCP host (`text_to_image`,
`inpainting`, `outpainting`, `image_variation`, `image_conditioning`,
`color_guided_generation`, `background_removal`). Each handler follows the
same steps. It checks its parameters and reads and base64-encodes any input
images. It builds a `taskType`-tagged request body and passes it to
`generate_image`, which calls Amazon Bedrock and decodes `images[0]` of the
reply. It then hands the bytes to `save_image`, which writes
`IMAGE_DIR/<prefix>_<timestamp>.png` and returns a descriptor dict. Every
exception is turned into an `McpError`. This project models that lifecycle as
pure functions over an abstract JSON value. The two handlers whose source
loops (`image_variation`, `color_guided_generation`) also have methods with
the loops, proved equal to those functions.

Everything outside the process is a field of `Host.Env`:
- the readable files, as a map from path to bytes (a path not in the map cannot be opened);
- `IMAGE_DIR`;
- the formatted timestamp of `datetime.now()`;
- the remote model, as a function from request body to `Invocation` (client error, other failure, a body that is no JSON text, or the parsed body);
- base64 encode and decode (`Host.Codec`), left abstract. `Host.ValidCodec` states the library's promise: the encoding is ASCII and decoding undoes it. Lemmas that need it take it as a hypothesis;
- whether `webbrowser.open` raises;
- Python's `str(e)` of each exception, and `str(v)` of a non-string JSON value. Each `Host.Fault` keeps the value that raised it (the path, the reply, `images`, the image text), so `str(e)` can depend on everything Python's message depends on.

Modules, one per part of `src/server.py`:
- `Wrappers`: Option and Result.
- `Json`: the JSON value. An object is a `map` (a Python dict).
- `Host`: bytes, the codec, the environment, and the exception values (`ImageError` or another `Fault`).
- `Generation`: `generate_image`.
- `Storage`: `save_image` and `os.path.join` as `posixpath.join`, plus `BaseName`, a helper that names the last component of a path so that the model can say the saved path ends in `filename`.
- `Requests`: the checks and request bodies of the seven handlers.
- `Tools`: the handlers and the `except` translation.

Facts about the code that the model keeps:
- The server keeps no image cache and uses no random identifiers. Files are named by prefix and timestamp to the second, so two saves with the same prefix in one second write the same path (`Storage.SameSecondSamePath`).
- The caller cannot choose the output path.
- Only `text_to_image` and `inpainting` take `open_browser`. The other five handlers always try to open the browser (the default `True`).
- A reply without an image raises no error of its own. Python's `TypeError`/`IndexError` goes through the handler's generic `except`, as "Error occurred while …: <str(e)>".
- `inpainting`, `image_conditioning` and `background_removal` check no parameters. `control_mode` is passed on unchecked.

## Model

| member | source | states |
|---|---|---|
| `Requests.TextToImageRequest` | src/server.py:157-179 | fails exactly when the prompt or the negative prompt is over 1024 characters or `num_images` is outside 1..4; the first failing check fixes the message; on success the body is `TEXT_IMAGE` with `text`/`negativeText` equal to the prompts and a config carrying `numberOfImages`, `height`, `width`, `cfgScale`, `seed` unchanged and no other key |
| `Requests.InpaintingRequest` | src/server.py:229-247 | fails exactly when the image cannot be read, with that read error; otherwise an `INPAINTING` body with text, negative text, the encoded image and the mask prompt, and a one-image config without seed |
| `Requests.OutpaintingRequest` | src/server.py:297-323 | a mode other than `DEFAULT`/`PRECISE` fails with the fixed message whatever the files; otherwise succeeds exactly when both files are readable, the image read failing first; the `OUTPAINTING` body holds both encoded images and the mode, with a one-image config without seed |
| `Requests.ReadEncoded` | src/server.py:230-231 | opening an input image succeeds exactly when the path is readable, and gives the base64 encoding of its bytes; otherwise it raises the read error naming that path |
| `Requests.FirstUnreadable` | src/server.py:380-381 | the index of the first path that cannot be opened: all before it can, it cannot, or it is the length of the list |
| `Requests.EncodeFiles` | src/server.py:379-382 | succeeds exactly when every path is readable, then gives one encoding per path in the same order; otherwise fails with the read error of the first unreadable path |
| `Requests.ImageVariationRequest` | src/server.py:371-398 | rejects fewer than 1 or more than 5 paths, then a similarity strength outside [0.2, 1.0]; then succeeds exactly when all paths are readable, else fails on the first unreadable one; the `IMAGE_VARIATION` body's `images` has the length and order of `image_paths`, with a one-image config without seed |
| `Requests.BuildImageVariationRequest` | src/server.py:372-398 | the handler's checks and its read-and-append loop return exactly `ImageVariationRequest` |
| `Requests.ImageConditioningRequest` | src/server.py:446-464 | fails exactly when the image cannot be read; otherwise a `TEXT_IMAGE` body with `conditionImage` and `controlMode` and a one-image config without seed |
| `Requests.FirstInvalidColor` | src/server.py:519-521 | the index of the first colour that fails the check: all before it start with `#` and have length 7, it does not, or it is the length of the list |
| `Requests.ColorGuidedRequest` | src/server.py:514-544 | rejects a colour list of length outside 1..10, then names the first invalid colour in the message, then fails only on an unreadable reference image; on success `colors` is passed unchanged and `referenceImage` is present exactly when a non-empty reference path was given |
| `Requests.BuildColorGuidedRequest` | src/server.py:514-544 | the handler's checks, its colour loop and its in-place `params["referenceImage"]` update return exactly `ColorGuidedRequest` |
| `Requests.NoHexDigitCheck` | src/server.py:520 | `#zzzzzz` passes the colour check; a code without `#` or of another length fails |
| `Requests.BackgroundRemovalRequest` | src/server.py:582-591 | fails exactly when the image cannot be read; otherwise the body has only `taskType` and `backgroundRemovalParams`, which has only `image`; there is no config |
| `Json.StringsRoundTrip` | src/server.py:526 | the list of strings read back from the JSON array in the body is the list that was put in |
| `Generation.FirstImage` | src/server.py:72 | Python's `images[0]`: a non-empty list gives its first element and a non-empty string its first character; an empty list or string raises IndexError on that value, a dict KeyError, and a missing value, null, number or bool TypeError naming what `images` held |
| `Generation.DecodeImage` | src/server.py:73-74 | succeeds exactly when the image is an ASCII string that base64-decodes, and gives the decoded bytes; a non-string raises AttributeError on that value, a non-ASCII string UnicodeEncodeError on that string, bad base64 binascii.Error on that text; with a correct codec the encoding of any bytes decodes back to them |
| `Generation.ReplyImage` | src/server.py:71-74 | a reply that is not a JSON object raises on `.get`, naming that reply; otherwise the fault of `images[0]`, or the decoding of it |
| `Generation.FaultKeepsCulprit` | src/server.py:72 | an empty list and an empty string as `images`, or a missing `images` and a number, raise different exceptions, each naming the value that raised it |
| `Generation.Interpret` | src/server.py:71-81 | succeeds exactly when `images[0]` decodes and `error` is absent or null, and the result is the decoding of `images[0]`; a decoding failure raises that failure; a non-null `error` raises "Image generation error. Error: <error>" |
| `Generation.GenerateImage` | src/server.py:66-86 | a client error becomes the ImageError "Client error occurred: <message>"; other call failures raise a fault with their reason, and a body that is no JSON the fault keeping its text; whenever the body parses, the outcome is exactly its interpretation, so the `error` field and the decoding faults reach the caller |
| `Generation.ReplyRoundTrip` | src/server.py:72-81 | with a correct base64 codec, a reply whose first image is the encoding of `b` and that has no error yields `b` |
| `Generation.GenerateRoundTrip` | src/server.py:67-81 | a model answering `{"images": [encoding of b]}` makes generate_image return `b` |
| `Generation.OnlyFirstImageCounts` | src/server.py:72 | images after the first never change the outcome |
| `Generation.ErrorMaskedByMissingImage` | src/server.py:72-78 | a reply with an `error` but no `images` raises the indexing fault, not the error message |
| `Storage.Join` | src/server.py:102 | an absolute name is the result itself; otherwise the joined path starts with the directory and ends with the name, with exactly one `/` added between them when the directory is non-empty and lacks a trailing one, and none added otherwise |
| `Storage.SaveImage` | src/server.py:99-126 | the bytes written are the bytes given; the file name is `prefix_timestamp.png` and the path is IMAGE_DIR joined with it; `image_base64` is the encoding of the written bytes and, with a correct codec, decodes back to them; the browser is asked to open `file://<path>` exactly when `open_browser` is set, and its failure is only recorded |
| `Storage.BaseName` | src/server.py:101-102 | a helper naming the last component of a path: it contains no `/` and is a suffix of the path |
| `Storage.BaseNameOfJoin` | src/server.py:102 | the last component of `os.path.join(dir, name)` is `name` when `name` has no `/` |
| `Storage.SaveImageDescriptor` | src/server.py:100-126 | the file name is `prefix_timestamp.png`, the path is IMAGE_DIR joined with it, the path's last component is the file name, the bytes written are the bytes given, and with a correct codec `image_base64` decodes to them |
| `Storage.BrowserNeverFailsSave` | src/server.py:115-126 | the descriptor and the written bytes do not depend on whether the browser opens; no attempt is made when `open_browser` is false |
| `Storage.SameSecondSamePath` | src/server.py:100-102 | two saves with one prefix within one second get the same path |
| `Storage.DistinctPrefixesDistinctNames` | src/server.py:101 | different prefixes give different file names for the same timestamp |
| `Tools.Translate` | src/server.py:195-198 | an ImageError message passes unchanged; any other exception becomes "Error occurred while <action>: <str(e)>" |
| `Tools.Lifecycle` | src/server.py:181-198 | a failed request never reaches the model or the disk; a sent request is the built body; a call whose generate_image returns bytes always saves them under the tool's prefix; a result is a success exactly when a file was saved, and then the file holds the bytes generate_image returned, saved under the tool's prefix, and the message is the tool's success text followed by " Saved location: <path>"; a generate_image exception becomes the translated error |
| `Tools.TextToImage` | src/server.py:156-198 | the model is called exactly when the parameter checks pass |
| `Tools.Inpainting` | src/server.py:228-266 | the model is called exactly when the input image is readable |
| `Tools.Outpainting` | src/server.py:296-342 | the model is called exactly when the mode is valid and both files are readable |
| `Tools.ImageVariation` | src/server.py:370-417 | the handler method equals the lifecycle run on `ImageVariationRequest`, always opening the browser |
| `Tools.ImageConditioning` | src/server.py:445-483 | the model is called exactly when the input image is readable |
| `Tools.ColorGuidedGeneration` | src/server.py:513-563 | the handler method equals the lifecycle run on `ColorGuidedRequest`, always opening the browser |
| `Tools.BackgroundRemoval` | src/server.py:581-610 | the model is called exactly when the input image is readable |
| `Tools.LifecycleEndToEnd` | src/server.py:181-193 | with a correct codec and a model answering with the encoding of `b`, every handler saves exactly `b` at IMAGE_DIR/<prefix>_<timestamp>.png and reports that path |
| `Tools.TextToImageEndToEnd` | src/server.py:166-193 | the same for text_to_image, with the path `text2img_<timestamp>.png` and its success message |
| `Tools.ClientErrorReachesCaller` | src/server.py:83-86 | a client error reaches the caller as "Client error occurred: <message>", with nothing saved |
| `Tools.ReplyWithoutImages` | src/server.py:72 | a reply without `images` ends in the handler's generic error message, with nothing saved |
| `Tools.InpaintingUnreadableImage` | src/server.py:230-231 | an unreadable inpainting image never reaches the model and yields "Error occurred while inpainting: <str(e)>" |
| `Tools.VariationSecondPathUnreadable` | src/server.py:379-382 | with two paths, the second unreadable, image_variation aborts before the model with that read error |
| `Tools.ToolsNeverShareFiles` | src/server.py:185 | two different handlers never name their files alike within one second |
| `Tools.SavedFileNaming` | src/server.py:185 | a handler's saved file is `<prefix>_<timestamp>.png`, the last component of the path it reports |

## Left out

- `get_aws_credentials`, the Bedrock client, the FastMCP server, tool registration and `main` (src/server.py:17-42, 682-693): configuration and transport. The remote model is a function in `Env`.
- `invoke_model`, reading its body and `json.loads`: the model returns an `Invocation` with the parsed JSON, or with the text that failed to parse. `json.dumps` is not modelled; the body is the JSON value itself, so the order of keys on the wire is not captured.
- Base64 is not implemented. It is the abstract `Codec`, tied together only by the `ValidCodec` hypothesis.
- File reads are the `files` map. Writing the output file, `os.makedirs` and log output are not modelled. A failing write, which the generic `except` would report, is not modelled either.
- `webbrowser.open` is only recorded as an attempt with its outcome. Its failure is logged and otherwise ignored.
- `datetime.now().strftime(...)`: the formatted timestamp is a field of `Env`.
- Python's exception texts (`str(e)`) and `str()` of non-string JSON values are functions in `Env`, not fixed strings. `ImagesIsDict` carries no value because `str(KeyError(0))` is always `0`.
- `Storage.Join`: the server is taken to run on a POSIX system, where `os.path.join` is `posixpath.join`. Windows' `ntpath.join`, with `\` separators and drive letters, is not modelled.
- `show_image` (src/server.py:632-680): HTTP download and PIL thumbnailing, library behaviour.
- `get_image` (src/server.py:613-630): a bare file read.
- `Requests.ImageVariationRequest`: `similarity_strength` and `cfg_scale` are `real`. The bounds 0.2 and 1.0 are exact rationals, not binary floating point. A `real` cannot be NaN. A NaN `similarity_strength` would fail both comparisons at src/server.py:375, so Python accepts it and sends it to the model; the model does not capture this.
- Parameter defaults and type coercion by FastMCP: handlers take every argument explicitly.
- `async`: each handler is one sequential computation. The `ctx` argument is unused and not modelled.
