/**
 * generate_image: one call of the remote model and the reading of its reply
 * (src/server.py lines 51-86).
 */
module Generation {
  import opened Wrappers
  import opened Json
  import opened Host

  const ClientErrorPrefix := "Client error occurred: "
  const GenerationErrorPrefix := "Image generation error. Error: "

  /** `response_body.get("images")[0]`, Python's indexing on whatever `images` holds. */
  function FirstImage(images: Option<Json>): (r: Result<Json, Fault>)
    ensures r.Success? <==> images.Some? && ((images.value.JArr? && images.value.items != [])
                                             || (images.value.JStr? && images.value.s != []))
    ensures r.Success? && images.value.JArr? ==> r.value == images.value.items[0]
    ensures r.Success? && images.value.JStr? ==> r.value == JStr([images.value.s[0]])
    ensures images.Some? && (images.value == JArr([]) || images.value == JStr([])) ==> r == Failure(ImagesEmpty(images.value))
    ensures images.Some? && images.value.JObj? ==> r == Failure(ImagesIsDict)
    ensures images.None? || images.value.JNull? || images.value.JBool? || images.value.JNum? || images.value.JReal? ==>
              r == Failure(ImagesNotSubscriptable(images))
  {
    match images
    case Some(JArr(xs)) => if xs == [] then Failure(ImagesEmpty(JArr(xs))) else Success(xs[0])
    case Some(JStr(s)) => if s == [] then Failure(ImagesEmpty(JStr(s))) else Success(JStr([s[0]]))
    case Some(JObj(_)) => Failure(ImagesIsDict)
    case _ => Failure(ImagesNotSubscriptable(images))
  }

  /** `base64.b64decode(image.encode('ascii'))` */
  function DecodeImage(codec: Codec, image: Json): (r: Result<Bytes, Fault>)
    ensures r.Success? <==> image.JStr? && IsAscii(image.s) && codec.decode(image.s).Some?
    ensures r.Success? ==> codec.decode(image.s) == Some(r.value)
    ensures !image.JStr? ==> r == Failure(ImageNotString(image))
    ensures image.JStr? && !IsAscii(image.s) ==> r == Failure(ImageNotAscii(image.s))
    ensures image.JStr? && IsAscii(image.s) && codec.decode(image.s).None? ==> r == Failure(ImageNotBase64(image.s))
    ensures ValidCodec(codec) && (exists b :: image == JStr(codec.encode(b))) ==> r.Success? && image == JStr(codec.encode(r.value))
  {
    match image
    case JStr(s) =>
      if !IsAscii(s) then Failure(ImageNotAscii(s))
      else (match codec.decode(s)
        case None => Failure(ImageNotBase64(s))
        case Some(b) => Success(b))
    case _ => Failure(ImageNotString(image))
  }

  /** The bytes of the first image of a reply, or the exception getting them raises. */
  function ReplyImage(codec: Codec, body: Json): (r: Result<Bytes, Fault>)
    ensures !body.JObj? ==> r == Failure(BodyNotObject(body))
    ensures body.JObj? && FirstImage(Member(body, "images")).Failure? ==>
              r == Failure(FirstImage(Member(body, "images")).error)
    ensures body.JObj? && FirstImage(Member(body, "images")).Success? ==>
              r == DecodeImage(codec, FirstImage(Member(body, "images")).value)
  {
    if !body.JObj? then Failure(BodyNotObject(body))
    else match FirstImage(Member(body, "images"))
      case Failure(f) => Failure(f)
      case Success(image) => DecodeImage(codec, image)
  }

  /** str(v) */
  function PyStr(show: Json -> string, v: Json): string
  {
    if v.JStr? then v.s else show(v)
  }

  /** Whether `response_body.get("error")` is not None. */
  predicate HasError(body: Json)
  {
    Member(body, "error").Some? && Member(body, "error").value != JNull
  }

  /** The part of generate_image after json.loads (lines 72-81). */
  function Interpret(codec: Codec, show: Json -> string, body: Json): (r: Outcome<Bytes>)
    ensures r.Done? <==> ReplyImage(codec, body).Success? && !HasError(body)
    ensures r.Done? ==> body.JObj? && FirstImage(Member(body, "images")).Success?
                        && DecodeImage(codec, FirstImage(Member(body, "images")).value) == Success(r.value)
    ensures ReplyImage(codec, body).Failure? ==> r == Raised(Other(ReplyImage(codec, body).error))
    ensures ReplyImage(codec, body).Success? && HasError(body) ==>
              r == Raised(ImageError(GenerationErrorPrefix + PyStr(show, Member(body, "error").value)))
  {
    match ReplyImage(codec, body)
    case Failure(f) => Raised(Other(f))
    case Success(bytes) =>
      if HasError(body) then Raised(ImageError(GenerationErrorPrefix + PyStr(show, Member(body, "error").value)))
      else Done(bytes)
  }

  /** generate_image(body) */
  function GenerateImage(env: Env, payload: Json): (r: Outcome<Bytes>)
    ensures env.model(payload).ClientError? ==>
              r == Raised(ImageError(ClientErrorPrefix + env.model(payload).message))
    ensures env.model(payload).CallFailed? ==> r == Raised(Other(Remote(env.model(payload).reason)))
    ensures env.model(payload).NotJson? ==> r == Raised(Other(BodyNotJson(env.model(payload).text)))
    ensures env.model(payload).Answered? ==> r == Interpret(env.codec, env.show, env.model(payload).body)
  {
    match env.model(payload)
    case ClientError(message) => Raised(ImageError(ClientErrorPrefix + message))
    case CallFailed(reason) => Raised(Other(Remote(reason)))
    case NotJson(text) => Raised(Other(BodyNotJson(text)))
    case Answered(body) => Interpret(env.codec, env.show, body)
  }

  /** A reply whose first image is the encoding of `b`, with no error, yields exactly `b`. */
  lemma ReplyRoundTrip(codec: Codec, show: Json -> string, body: Json, b: Bytes)
    requires ValidCodec(codec)
    requires Member(body, "images").Some? && Member(body, "images").value.JArr?
    requires |Member(body, "images").value.items| > 0
    requires Member(body, "images").value.items[0] == JStr(codec.encode(b))
    requires !HasError(body)
    ensures Interpret(codec, show, body) == Done(b)
  {
  }

  /** A model answering `{"images": [<encoding of b>]}` makes generate_image return `b`. */
  lemma GenerateRoundTrip(env: Env, payload: Json, b: Bytes)
    requires ValidCodec(env.codec)
    requires env.model(payload) == Answered(JObj(map["images" := JArr([JStr(env.codec.encode(b))])]))
    ensures GenerateImage(env, payload) == Done(b)
  {
  }

  /** Only `images[0]` is read: the other images of a reply never change the outcome. */
  lemma OnlyFirstImageCounts(codec: Codec, show: Json -> string, fields: map<string, Json>, xs: seq<Json>)
    requires "images" in fields && fields["images"] == JArr(xs) && |xs| > 0
    ensures Interpret(codec, show, JObj(fields)) == Interpret(codec, show, JObj(fields["images" := JArr([xs[0]])]))
  {
  }

  /**
   * The `error` field is consulted only after `images[0]` was decoded: a reply
   * that carries an error but no decodable image raises the decoding exception,
   * and the error text never reaches the caller.
   */
  lemma ErrorMaskedByMissingImage(codec: Codec, show: Json -> string, message: string)
    ensures Interpret(codec, show, JObj(map["error" := JStr(message)])) == Raised(Other(ImagesNotSubscriptable(None)))
  {
  }

  /**
   * A fault keeps the value that raised it, so an empty list and an empty
   * string, or a missing `images` and a number, raise different exceptions
   * ("list index out of range" against "string index out of range",
   * "'NoneType' object ..." against "'int' object ...").
   */
  lemma FaultKeepsCulprit(codec: Codec, show: Json -> string)
    ensures Interpret(codec, show, JObj(map["images" := JArr([])])) == Raised(Other(ImagesEmpty(JArr([]))))
    ensures Interpret(codec, show, JObj(map["images" := JStr([])])) == Raised(Other(ImagesEmpty(JStr([]))))
    ensures Interpret(codec, show, JObj(map[])) == Raised(Other(ImagesNotSubscriptable(None)))
    ensures Interpret(codec, show, JObj(map["images" := JNum(5)])) == Raised(Other(ImagesNotSubscriptable(Some(JNum(5)))))
  {
  }
}
