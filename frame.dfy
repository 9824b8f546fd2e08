/** The frame endpoint (`handler` of api/frame.ts): it accepts only POST and then answers
    with one fixed frame envelope. */
module Frame {
  import opened Wrappers

  /** The parts of an incoming request. Only `httpMethod` (`req.method`) is consulted; `url` and `body` stand
      for everything else the request object carries. `httpMethod` is None when the request
      object has no method at all. */
  datatype Request = Request(httpMethod: Option<string>, url: string, body: string)

  /** One entry of the envelope's `buttons` list; `caption` is the JSON key `label`. */
  datatype Button = Button(caption: string)

  /** The `frames` object of the success reply; `postUrl` is the JSON key `post_url`. */
  datatype Envelope = Envelope(version: string, image: string, buttons: seq<Button>, postUrl: string)

  /** A JSON reply body: `{ error }` or `{ frames }`. */
  datatype Body = ErrorBody(error: string) | FramesBody(frames: Envelope)

  datatype Response = Response(status: nat, body: Body)

  /** "405 Method Not Allowed", section 15.5.6 of RFC 9110. */
  const MethodNotAllowed: nat := 405
  /** "200 OK", section 15.3.1 of RFC 9110. */
  const Ok: nat := 200

  const OnlyPost := "Only POST requests are allowed."
  const Origin := "https://honk-frame.vercel.app"
  /** The path under which this handler is served. */
  const FramePath := "/api/frame"

  const Rejection := Response(MethodNotAllowed, ErrorBody(OnlyPost))

  const Reply := Response(Ok, FramesBody(Envelope(
    "vNext",
    "https://honk-frame.vercel.app/frame-preview.png",
    [Button("🦆 Honk Again")],
    "https://honk-frame.vercel.app/api/frame")))

  /** The handler: anything but POST is refused, POST gets the frame envelope. */
  function Handle(req: Request): (r: Response)
    ensures r.status == MethodNotAllowed <==> req.httpMethod != Some("POST")
    ensures r.status == Ok <==> req.httpMethod == Some("POST")
    ensures r.status == MethodNotAllowed ==> r.body == ErrorBody("Only POST requests are allowed.")
    ensures r.status == Ok ==>
      r.body.FramesBody? &&
      r.body.frames.version == "vNext" &&
      r.body.frames.image == "https://honk-frame.vercel.app/frame-preview.png" &&
      r.body.frames.buttons == [Button("🦆 Honk Again")] &&
      r.body.frames.postUrl == "https://honk-frame.vercel.app/api/frame"
  {
    if req.httpMethod != Some("POST") then Rejection else Reply
  }

  /** The reply is a function of the method alone. */
  lemma DependsOnlyOnMethod(a: Request, b: Request)
    requires a.httpMethod == b.httpMethod
    ensures Handle(a) == Handle(b)
  {
  }

  /** Exactly two replies exist: every request gets one of them, each is reached, and they differ. */
  lemma ExactlyTwoResponses(req: Request)
    ensures Handle(req) == Rejection || Handle(req) == Reply
    ensures Handle(Request(Some("POST"), req.url, req.body)) == Reply
    ensures Handle(Request(None, req.url, req.body)) == Rejection
    ensures Rejection != Reply
  {
  }

  /** The success envelope offers exactly one button, and its `post_url` leads back to this
      handler on the same origin that serves the preview image. */
  lemma ReplyPointsBack(req: Request)
    requires req.httpMethod == Some("POST")
    ensures var f := Handle(req).body.frames;
      |f.buttons| == 1 &&
      f.postUrl == Origin + FramePath &&
      f.image[..|Origin|] == Origin
  {
    var f := Handle(req).body.frames;
    assert f.postUrl == Origin + FramePath;
    assert f.image[..|Origin|] == Origin;
  }
}
