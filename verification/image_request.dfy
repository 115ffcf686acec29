/** The image half of the generators: one request to the image service with
    its retry loop (`wavespeedGenerate`), and the illustration of one scene
    (`generateImage`): prompt assembly, the request, header removal, decoding
    and upload. The network, the base64 decoder and the storage bucket are
    parameters: `transport(request, attempt)` is the response the service gives
    to the attempt with that index, `decode` stands for `atob` and `upload`
    for the storage call (`None` when it reports an error). */
module ImageRequest {
  import opened Common
  import opened Constants
  import opened DataUri

  /** Requests per call, first one included (`maxRetries`). */
  const MaxRetries: nat := 3

  /** The fixed request body; only the prompt varies. */
  datatype Request = Request(prompt: string, resolution: string, outputFormat: string,
                             syncMode: bool, base64Output: bool)

  function RequestFor(prompt: string): Request
  {
    Request(prompt, "1k", "png", true, true)
  }

  /** What `res.json()` makes of a reply body: a parse failure (with its
      message), an object without an `outputs` array, or the `outputs` items.
      An item is `None` when it is `null` or otherwise not a string. */
  datatype Body = NotJson(parseError: string) | NoOutputs | Outputs(items: seq<Option<string>>)

  /** The fate of one request: `fetch` rejects, or a reply arrives with a
      status, its text (read for error replies) and its parsed body. */
  datatype Response = Rejected(reason: string) | Reply(status: nat, text: string, body: Body)

  /** `res.ok`. */
  predicate IsOk(status: nat)
  {
    200 <= status <= 299
  }

  /** How the loop body treats one response: wait and go on without entering
      the `catch` (`RateLimited`), throw (`Failed`), or return. */
  datatype Attempt = RateLimited | Failed(message: string) | Succeeded(outputs: seq<Option<string>>)

  const InvalidResponseMessage: string := "Invalid response from image API"

  function StatusMessage(status: nat, text: string): string
  {
    "Wavespeed API error: " + NatToString(status) + " " + text
  }

  /** One pass of the loop body over a response; `last` is true on the final
      attempt, where a 429 is no longer special and fails like any other
      error status. */
  function Classify(resp: Response, last: bool): (a: Attempt)
    ensures a.RateLimited? <==> resp.Reply? && resp.status == 429 && !last
    ensures a.Succeeded? <==> resp.Reply? && IsOk(resp.status) && resp.body.Outputs?
    ensures resp.Reply? && resp.status == 429 && last ==> a == Failed(StatusMessage(429, resp.text))
    ensures resp.Rejected? ==> a == Failed(resp.reason)
    ensures resp.Reply? && !IsOk(resp.status) && !(resp.status == 429 && !last)
            ==> a == Failed(StatusMessage(resp.status, resp.text))
    ensures resp.Reply? && IsOk(resp.status) && resp.body.NotJson? ==> a == Failed(resp.body.parseError)
    ensures resp.Reply? && IsOk(resp.status) && resp.body.NoOutputs? ==> a == Failed(InvalidResponseMessage)
    ensures a.Succeeded? ==> a.outputs == resp.body.items
  {
    match resp
    case Rejected(reason) => Failed(reason)
    case Reply(status, text, body) =>
      if status == 429 && !last then RateLimited
      else if !IsOk(status) then Failed(StatusMessage(status, text))
      else
        match body
        case NotJson(e) => Failed(e)
        case NoOutputs => Failed(InvalidResponseMessage)
        case Outputs(items) => Succeeded(items)
  }

  /** The loop body's view of attempt `k` of a call with this prompt. */
  function AttemptAt(transport: (Request, nat) -> Response, prompt: string, k: nat): Attempt
  {
    Classify(transport(RequestFor(prompt), k), k == MaxRetries - 1)
  }

  /** The wait after a failed attempt `k` that is not the last: `2000·(k+1)` ms
      after a 429, `1000·(k+1)` ms after anything else. */
  function Backoff(a: Attempt, k: nat): nat
  {
    (if a.RateLimited? then 2000 else 1000) * (k + 1)
  }

  /** How a call to `wavespeedGenerate` ends: it returns the `outputs` array,
      it throws, or the loop runs out and the function returns `undefined`. */
  datatype Exit = Returned(outputs: seq<Option<string>>) | Threw(message: string) | FellThrough

  /** The exit, the number of requests sent and the waits, in order. */
  datatype Trace = Trace(exit: Exit, requests: nat, delays: seq<nat>)

  /** `wavespeedGenerate(prompt)`. The call sends between one and three
      requests, waits after every failed attempt but the final one, returns
      the first successful reply's outputs, throws only the final attempt's
      error, and never falls out of the loop. */
  method WavespeedGenerate(prompt: string, transport: (Request, nat) -> Response) returns (t: Trace)
    ensures 1 <= t.requests <= MaxRetries
    ensures !t.exit.FellThrough?
    ensures |t.delays| == t.requests - 1
    ensures forall k :: 0 <= k < t.requests - 1 ==> !AttemptAt(transport, prompt, k).Succeeded?
    ensures forall k :: 0 <= k < |t.delays| ==> t.delays[k] == Backoff(AttemptAt(transport, prompt, k), k)
    ensures t.exit.Returned? <==> AttemptAt(transport, prompt, t.requests - 1).Succeeded?
    ensures t.exit.Returned? ==> t.exit.outputs == AttemptAt(transport, prompt, t.requests - 1).outputs
    ensures t.exit.Threw? ==>
      t.requests == MaxRetries && AttemptAt(transport, prompt, MaxRetries - 1) == Failed(t.exit.message)
    ensures t.requests < MaxRetries ==> t.exit.Returned?
  {
    var attempt: nat := 0;
    var delays: seq<nat> := [];
    var exit := FellThrough;
    while attempt < MaxRetries && exit.FellThrough?
      invariant attempt <= MaxRetries
      invariant exit.FellThrough? ==> attempt < MaxRetries && |delays| == attempt
      invariant !exit.FellThrough? ==> attempt >= 1 && |delays| == attempt - 1
      invariant forall k :: 0 <= k < |delays| ==>
        !AttemptAt(transport, prompt, k).Succeeded? && delays[k] == Backoff(AttemptAt(transport, prompt, k), k)
      invariant exit.Returned? ==> AttemptAt(transport, prompt, attempt - 1) == Succeeded(exit.outputs)
      invariant exit.Threw? ==>
        attempt == MaxRetries && AttemptAt(transport, prompt, attempt - 1) == Failed(exit.message)
    {
      var outcome := AttemptAt(transport, prompt, attempt);
      match outcome {
        case RateLimited =>
          delays := delays + [2000 * (attempt + 1)];
        case Failed(message) =>
          if attempt == MaxRetries - 1 {
            exit := Threw(message);
          } else {
            delays := delays + [1000 * (attempt + 1)];
          }
        case Succeeded(outputs) =>
          exit := Returned(outputs);
      }
      attempt := attempt + 1;
    }
    t := Trace(exit, attempt, delays);
  }

  const MissingKeyMessage: string :=
    "Wavespeed API key not configured. Please set VITE_WAVESPEED_API_KEY in .env.local"
  const NoImageMessage: string := "No image generated"
  const UploadFailedMessage: string := "Failed to upload image to storage"
  const WrapPrefix: string := "Failed to generate image: "

  /** The prompt sent for one scene. `noText` is the no-readable-text
      instruction, whose wording is not part of this model. */
  function ImagePrompt(style: string, scene: string, noText: string): (r: string)
    ensures IsPrefix(GetImagePrompt(style, scene), r)
    ensures IsPrefix(SafetyPromptPrefix, r)
    ensures IsSuffix(noText, r)
  {
    var r := GetImagePrompt(style, scene) + ". " + noText;
    assert r[..|SafetyPromptPrefix|] == GetImagePrompt(style, scene)[..|SafetyPromptPrefix|];
    r
  }

  /** The prompt of a feedback-driven regeneration: the scene prompt with the
      user's feedback appended. */
  function FeedbackImagePrompt(style: string, scene: string, noText: string, feedback: string): (r: string)
    ensures IsPrefix(ImagePrompt(style, scene, noText), r)
    ensures IsSuffix(feedback, r)
  {
    ImagePrompt(style, scene, noText) + " User feedback for improvement: " + feedback
  }

  /** `outputs[0]` when it is truthy: present, a string, and not empty. */
  function FirstImage(outputs: seq<Option<string>>): (r: Option<string>)
    ensures r.Some? ==> |outputs| > 0 && outputs[0] == r && r.value != ""
    ensures r.None? ==> |outputs| == 0 || outputs[0].None? || outputs[0] == Some("")
  {
    if |outputs| > 0 && outputs[0].Some? && outputs[0].value != "" then outputs[0] else None
  }

  newtype byte = x: int | 0 <= x < 256

  /** What `generateImage` does with a returned `outputs` array: take the first
      image, strip its header, decode it, upload it. Every error is rethrown
      with the `Failed to generate image: ` prefix. */
  function Finish(outputs: seq<Option<string>>, decode: string -> Result<seq<byte>>,
                  upload: seq<byte> -> Option<string>): (r: Result<string>)
    ensures r.Err? ==> IsPrefix(WrapPrefix, r.message)
    ensures FirstImage(outputs).None? ==> r == Err(WrapPrefix + NoImageMessage)
    ensures r.Ok? <==> (&& FirstImage(outputs).Some?
                        && decode(StripHeader(FirstImage(outputs).value)).Ok?
                        && upload(decode(StripHeader(FirstImage(outputs).value)).value).Some?)
    ensures r.Ok? ==> Some(r.value) == upload(decode(StripHeader(FirstImage(outputs).value)).value)
    ensures FirstImage(outputs).Some? && decode(StripHeader(FirstImage(outputs).value)).Err?
            ==> r == Err(WrapPrefix + decode(StripHeader(FirstImage(outputs).value)).message)
    ensures FirstImage(outputs).Some? && decode(StripHeader(FirstImage(outputs).value)).Ok?
            && upload(decode(StripHeader(FirstImage(outputs).value)).value).None?
            ==> r == Err(WrapPrefix + UploadFailedMessage)
  {
    match FirstImage(outputs)
    case None => Err(WrapPrefix + NoImageMessage)
    case Some(payload) =>
      match decode(StripHeader(payload))
      case Err(e) => Err(WrapPrefix + e)
      case Ok(bytes) =>
        match upload(bytes)
        case None => Err(WrapPrefix + UploadFailedMessage)
        case Some(url) => Ok(url)
  }

  /** An empty `outputs` array is an error, not a silent missing URL. */
  lemma EmptyOutputsFail(decode: string -> Result<seq<byte>>, upload: seq<byte> -> Option<string>)
    ensures Finish([], decode, upload) == Err("Failed to generate image: No image generated")
  {
  }

  /** What `generateImage` makes of the request's exit: a thrown error is
      rethrown behind the prefix, returned outputs go on to `Finish`. */
  function Conclude(exit: Exit, decode: string -> Result<seq<byte>>,
                    upload: seq<byte> -> Option<string>): (r: Result<string>)
    requires !exit.FellThrough?
    ensures r.Err? ==> IsPrefix(WrapPrefix, r.message)
    ensures exit.Threw? ==> r == Err(WrapPrefix + exit.message)
    ensures r.Ok? ==> exit.Returned? && FirstImage(exit.outputs).Some?
    ensures exit.Returned? ==> r == Finish(exit.outputs, decode, upload)
  {
    if exit.Threw? then
      PrefixOfConcat(WrapPrefix, exit.message);
      Err(WrapPrefix + exit.message)
    else
      Finish(exit.outputs, decode, upload)
  }

  /** Attempt `k` is the first of the call to succeed. */
  predicate FirstSuccessAt(transport: (Request, nat) -> Response, prompt: string, k: nat)
  {
    && k < MaxRetries
    && AttemptAt(transport, prompt, k).Succeeded?
    && forall j :: 0 <= j < k ==> !AttemptAt(transport, prompt, j).Succeeded?
  }

  /** `generateImage(sceneDescription, visualStyle)`. Without an API key it
      throws before sending anything; otherwise it sends the scene prompt,
      and every failure it meets (the request's own error included) reaches
      the caller behind the `Failed to generate image: ` prefix. The first
      attempt to succeed for exactly this prompt ends the requests, and its
      outputs decide the result: the uploaded URL when the first image
      decodes and uploads. When no attempt succeeds, the third attempt's
      error is the one reported. */
  method GenerateImage(keyConfigured: bool, scene: string, style: string, noText: string,
                       transport: (Request, nat) -> Response,
                       decode: string -> Result<seq<byte>>,
                       upload: seq<byte> -> Option<string>)
    returns (r: Result<string>, t: Option<Trace>)
    ensures !keyConfigured ==> r == Err(MissingKeyMessage) && t.None?
    ensures keyConfigured ==> t.Some? && 1 <= t.value.requests <= MaxRetries
    ensures keyConfigured ==> !t.value.exit.FellThrough? && r == Conclude(t.value.exit, decode, upload)
    ensures r.Ok? ==> keyConfigured && t.value.exit.Returned?
    ensures keyConfigured && t.value.exit.Returned? ==>
      AttemptAt(transport, ImagePrompt(style, scene, noText), t.value.requests - 1).Succeeded?
    ensures keyConfigured && t.value.exit.Returned? ==>
      FirstSuccessAt(transport, ImagePrompt(style, scene, noText), t.value.requests - 1)
    ensures keyConfigured ==> forall k: nat :: FirstSuccessAt(transport, ImagePrompt(style, scene, noText), k) ==>
      && t.value.requests == k + 1
      && r == Finish(AttemptAt(transport, ImagePrompt(style, scene, noText), k).outputs, decode, upload)
    ensures keyConfigured && t.value.exit.Threw? ==>
      && t.value.requests == MaxRetries
      && AttemptAt(transport, ImagePrompt(style, scene, noText), MaxRetries - 1) == Failed(t.value.exit.message)
      && r == Err(WrapPrefix + t.value.exit.message)
    ensures keyConfigured && (forall k :: 0 <= k < MaxRetries ==>
                                !AttemptAt(transport, ImagePrompt(style, scene, noText), k).Succeeded?) ==>
      && AttemptAt(transport, ImagePrompt(style, scene, noText), MaxRetries - 1).Failed?
      && r == Err(WrapPrefix + AttemptAt(transport, ImagePrompt(style, scene, noText), MaxRetries - 1).message)
  {
    if !keyConfigured {
      return Err(MissingKeyMessage), None;
    }
    var prompt := ImagePrompt(style, scene, noText);
    var trace := WavespeedGenerate(prompt, transport);
    t := Some(trace);
    r := Conclude(trace.exit, decode, upload);
  }

  /** A scene served on the first request: the headed payload is stripped,
      decoded and uploaded, and the upload's URL is what the caller gets. */
  method ServedFirstTime() returns (r: Result<string>, t: Option<Trace>)
    ensures r == Ok("https://bucket/fox.png") && t.Some? && t.value.requests == 1
  {
    var transport := (req: Request, k: nat) => Reply(200, "", Outputs([Some("data:image/png;base64,aGk=")]));
    var decode := (s: string) => if s == "aGk=" then Ok([104 as byte, 105 as byte]) else Err("bad");
    var upload := (b: seq<byte>) => if b == [104 as byte, 105 as byte] then Some("https://bucket/fox.png") else None;
    var payload := "data:image/png;base64,aGk=";
    assert payload == Scheme + "png" + Marker + "aGk=";
    StripsOneHeader("png", "aGk=");
    var prompt := ImagePrompt("watercolor", "a fox", "no text");
    assert AttemptAt(transport, prompt, 0) == Succeeded([Some(payload)]);
    assert FirstSuccessAt(transport, prompt, 0);
    r, t := GenerateImage(true, "a fox", "watercolor", "no text", transport, decode, upload);
    assert FirstImage([Some(payload)]) == Some(payload);
    assert decode(StripHeader(payload)) == Ok([104 as byte, 105 as byte]);
  }

  /** Two rate-limited replies and then a good one: the call succeeds on the
      third request after waiting 2000 ms and then 4000 ms. */
  method RateLimitedTwiceThenServed() returns (t: Trace)
    ensures t == Trace(Returned([Some("aGk=")]), 3, [2000, 4000])
  {
    var transport := (req: Request, k: nat) =>
      if k < 2 then Reply(429, "Too Many Requests", NoOutputs) else Reply(200, "", Outputs([Some("aGk=")]));
    t := WavespeedGenerate("a fox", transport);
    assert AttemptAt(transport, "a fox", 0) == RateLimited;
    assert AttemptAt(transport, "a fox", 1) == RateLimited;
  }

  /** A server error on the first attempt is retried after 1000 ms rather than
      surfacing at once. */
  method ServerErrorThenServed() returns (t: Trace)
    ensures t == Trace(Returned([]), 2, [1000])
  {
    var transport := (req: Request, k: nat) =>
      if k == 0 then Reply(500, "oops", NoOutputs) else Reply(200, "", Outputs([]));
    t := WavespeedGenerate("a fox", transport);
    assert AttemptAt(transport, "a fox", 0).Failed?;
    assert AttemptAt(transport, "a fox", 1) == Succeeded([]);
  }
}
