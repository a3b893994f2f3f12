/**
 * What the server's core gets from outside: files it may read, the image
 * directory, the clock, the remote model, base64 and Python's rendering of
 * exceptions. Each is a value of `Env`, so every operation is a function of it.
 */
module Host {
  import opened Wrappers
  import opened Json

  newtype Byte = b: int | 0 <= b < 256

  type Bytes = seq<Byte>

  /** Base64 (section 4 of RFC 4648) from Python's base64 module, left abstract. */
  datatype Codec = Codec(encode: Bytes -> string, decode: string -> Option<Bytes>)

  predicate IsAscii(s: string)
  {
    forall i | 0 <= i < |s| :: s[i] as int < 128
  }

  /** What the library promises: the encoding is ASCII text and decoding undoes it. */
  ghost predicate ValidCodec(c: Codec)
  {
    && (forall b :: IsAscii(c.encode(b)))
    && (forall b :: c.decode(c.encode(b)) == Some(b))
  }

  /** One call of the remote model: `invoke_model`, reading the body and `json.loads`. */
  datatype Invocation =
    | ClientError(message: string)   // botocore ClientError; the text of its Error.Message
    | CallFailed(reason: string)     // any other exception raised by the call
    | NotJson(text: string)          // the body was read but is not JSON text
    | Answered(body: Json)           // the parsed body

  /**
   * The Python exceptions other than ImageError that the core can raise. Each
   * keeps the value that raised it, since Python's message names that value
   * (its type, the offending character and position, the bad text).
   */
  datatype Fault =
    | Unreadable(path: string)               // open() or read() of an input image raised
    | Remote(reason: string)                 // the model call raised something else than ClientError
    | BodyNotJson(text: string)              // json.loads(text) raised
    | BodyNotObject(body: Json)              // `.get` on a reply that is no dict: AttributeError
    | ImagesNotSubscriptable(images: Option<Json>)  // `images` missing, null, a number or a bool: TypeError
    | ImagesEmpty(empty: Json)               // `images` is [] or "": IndexError
    | ImagesIsDict                           // `images` is a dict: KeyError(0), whose text is always "0"
    | ImageNotString(image: Json)            // `images[0]` has no `.encode`: AttributeError
    | ImageNotAscii(s: string)               // `.encode('ascii')` raised UnicodeEncodeError
    | ImageNotBase64(s: string)              // `base64.b64decode` raised binascii.Error

  datatype Exception = ImageError(message: string) | Other(fault: Fault)

  /** A Python computation: a value, or the exception it raised. */
  datatype Outcome<+T> = Done(value: T) | Raised(exn: Exception)

  datatype Env = Env(
    files: map<string, Bytes>,       // the files that can be opened, with their content
    imageDir: string,                // IMAGE_DIR
    timestamp: string,               // datetime.now().strftime("%Y%m%d_%H%M%S") at save time
    model: Json -> Invocation,       // the remote model, given the request body
    codec: Codec,
    browserFails: string -> bool,    // whether webbrowser.open(url) raises
    describe: Fault -> string,       // str(e) of the exception a fault stands for
    show: Json -> string)            // str(v) of a JSON value that is not a string

  /** `open(path, "rb").read()`: None when the file cannot be read. */
  function ReadFile(files: map<string, Bytes>, path: string): Option<Bytes>
  {
    if path in files then Some(files[path]) else None
  }
}
