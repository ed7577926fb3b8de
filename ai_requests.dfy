/**
 * The pure decisions of the AI image service: the request body sent to each
 * back end, the image extracted from each back end's response, the message
 * shown for a failed request, the retry rule and the simulated progress.
 */
module AIRequests {
  import opened Wrappers
  import opened History
  import Decimal

  // ---- JSON values ----

  /** A JavaScript value as far as request and response bodies use it; `JUndefined` is `undefined`. */
  datatype Json =
    | JUndefined
    | JNull
    | JBool(b: bool)
    | JNumber(n: real)
    | JString(s: string)
    | JArray(items: seq<Json>)
    | JObject(members: seq<(string, Json)>)

  /** ECMAScript `ToBoolean` (NaN is not modelled). */
  predicate Truthy(v: Json) {
    match v
    case JUndefined => false
    case JNull => false
    case JBool(b) => b
    case JNumber(n) => n != 0.0
    case JString(s) => s != ""
    case _ => true
  }

  /** `v?.key` on an object: the first member with that key, `undefined` for other values. */
  function Field(v: Json, key: string): Json {
    if v.JObject? then Lookup(v.members, key) else JUndefined
  }

  function Lookup(members: seq<(string, Json)>, key: string): Json
    decreases |members|
  {
    if members == [] then JUndefined
    else if members[0].0 == key then members[0].1
    else Lookup(members[1..], key)
  }

  /**
   * `v?.[0]`: an array's first element, an object's member `"0"`, and
   * `undefined` for other values (a string's first character has no property
   * that is read here, so it is `undefined` too).
   */
  function First(v: Json): Json {
    if v.JArray? then (if |v.items| > 0 then v.items[0] else JUndefined)
    else if v.JObject? then Lookup(v.members, "0")
    else JUndefined
  }

  function Keys(members: seq<(string, Json)>): seq<string> {
    seq(|members|, k requires 0 <= k < |members| => members[k].0)
  }

  /** An object's value for `key`, when `key` is one of its keys. */
  lemma LookupFirst(members: seq<(string, Json)>, k: nat)
    requires k < |members| && forall j :: 0 <= j < k ==> members[j].0 != members[k].0
    ensures Lookup(members, members[k].0) == members[k].1
  {
    if k > 0 {
      LookupFirst(members[1..], k - 1);
    }
  }

  // ---- Requests ----

  /**
   * The `seed` parameter: absent, `null` (what the generation form sends when
   * no seed is typed in), or a number.
   */
  datatype Seed = NoSeed | NullSeed | SeedNumber(value: int)

  /** `AIParameters`; the optional numbers are `None` when absent. */
  datatype AIParameters = AIParameters(steps: Option<int>, guidanceScale: Option<real>,
                                       width: int, height: int, seed: Seed)

  datatype AIGenerationRequest = AIGenerationRequest(prompt: string, model: AIModel, parameters: AIParameters,
                                                     inputImage: Option<string>, maskImage: Option<string>)

  function IntOr(o: Option<int>, default: int): (n: int)
    ensures o.Some? && o.value != 0 ==> n == o.value
    ensures o.None? || o.value == 0 ==> n == default
  {
    if o.Some? && o.value != 0 then o.value else default
  }

  function RealOr(o: Option<real>, default: real): (n: real)
    ensures o.Some? && o.value != 0.0 ==> n == o.value
    ensures o.None? || o.value == 0.0 ==> n == default
  {
    if o.Some? && o.value != 0.0 then o.value else default
  }

  /** The seed as a JSON member value: `undefined` is dropped on serialisation, `null` is posted. */
  function SeedJson(s: Seed): (j: Json)
    ensures j.JUndefined? <==> s.NoSeed?
    ensures j.JNull? <==> s.NullSeed?
    ensures s.SeedNumber? ==> j == JNumber(s.value as real)
  {
    match s
    case NoSeed => JUndefined
    case NullSeed => JNull
    case SeedNumber(n) => JNumber(n as real)
  }

  function OptString(o: Option<string>): Json {
    if o.Some? then JString(o.value) else JUndefined
  }

  const DefaultSteps: int := 20
  const DefaultGuidanceScale: real := 7.5

  /** `${width}:${height}`. */
  function AspectRatio(width: int, height: int): string {
    Decimal.IntToString(width) + ":" + Decimal.IntToString(height)
  }

  /** Reads an aspect ratio back into its width and height. */
  function ParseAspectRatio(s: string): Option<(int, int)> {
    var w := Decimal.ReadInt(s);
    if w.None? || |w.value.1| == 0 || w.value.1[0] != ':' then None
    else
      var h := Decimal.ReadInt(w.value.1[1..]);
      if h.None? || h.value.1 != "" then None else Some((w.value.0, h.value.0))
  }

  /** The aspect ratio string determines the width and the height. */
  lemma AspectRatioRoundTrip(width: int, height: int)
    ensures ParseAspectRatio(AspectRatio(width, height)) == Some((width, height))
  {
    var ws, hs := Decimal.IntToString(width), Decimal.IntToString(height);
    assert AspectRatio(width, height) == ws + (":" + hs);
    Decimal.ReadIntRoundTrip(width, ":" + hs);
    assert (":" + hs)[1..] == hs + "";
    Decimal.ReadIntRoundTrip(height, "");
  }

  /** `{prompt, width, height}`. */
  function BaseBody(r: AIGenerationRequest): seq<(string, Json)> {
    [("prompt", JString(r.prompt)), ("width", JNumber(r.parameters.width as real)),
     ("height", JNumber(r.parameters.height as real))]
  }

  /** `buildRequestBody`: the JSON body posted for each model. */
  function BuildRequestBody(r: AIGenerationRequest): (body: Json)
    ensures body.JObject?
  {
    var p := r.parameters;
    match r.model
    case StableDiffusion =>
      JObject(BaseBody(r) + [("steps", JNumber(IntOr(p.steps, DefaultSteps) as real)),
                             ("guidance_scale", JNumber(RealOr(p.guidanceScale, DefaultGuidanceScale))),
                             ("seed", SeedJson(p.seed))])
    case QwenImageEdit =>
      JObject(BaseBody(r) + [("input_image", OptString(r.inputImage)), ("mask_image", OptString(r.maskImage))])
    case GoogleImagen =>
      JObject([("instances", JArray([JObject([("prompt", JString(r.prompt)),
                                              ("image", JObject([("bytesBase64Encoded", OptString(r.inputImage))]))])])),
               ("parameters", JObject([("sampleCount", JNumber(1.0)),
                                       ("aspectRatio", JString(AspectRatio(p.width, p.height))),
                                       ("guidanceScale", JNumber(RealOr(p.guidanceScale, DefaultGuidanceScale)))]))])
    case Unsupported(_) => JObject(BaseBody(r))
  }

  /**
   * Stable Diffusion gets the prompt and size, `steps` and `guidance_scale`
   * that are never 0 (the caller's values, or 20 and 7.5 in their place), and
   * the caller's seed as given, `null` included.
   */
  lemma StableDiffusionBody(r: AIGenerationRequest)
    requires r.model == StableDiffusion
    ensures var body := BuildRequestBody(r);
      Field(body, "prompt") == JString(r.prompt)
      && Field(body, "width") == JNumber(r.parameters.width as real)
      && Field(body, "height") == JNumber(r.parameters.height as real)
      && Field(body, "steps") == JNumber(IntOr(r.parameters.steps, DefaultSteps) as real)
      && Field(body, "guidance_scale") == JNumber(RealOr(r.parameters.guidanceScale, DefaultGuidanceScale))
      && Truthy(Field(body, "steps")) && Truthy(Field(body, "guidance_scale"))
      && Field(body, "seed") == SeedJson(r.parameters.seed)
  {
    var m := BuildRequestBody(r).members;
    LookupFirst(m, 0); LookupFirst(m, 1); LookupFirst(m, 2); LookupFirst(m, 3); LookupFirst(m, 4);
    LookupFirst(m, 5);
  }

  /** Google Imagen gets one sample and a `width:height` aspect ratio that reads back as the size. */
  lemma ImagenBody(r: AIGenerationRequest)
    requires r.model == GoogleImagen
    ensures var params := Field(BuildRequestBody(r), "parameters");
      Field(params, "sampleCount") == JNumber(1.0)
      && Field(params, "aspectRatio").JString?
      && ParseAspectRatio(Field(params, "aspectRatio").s) == Some((r.parameters.width, r.parameters.height))
      && Field(params, "guidanceScale") == JNumber(RealOr(r.parameters.guidanceScale, DefaultGuidanceScale))
      && Field(First(Field(BuildRequestBody(r), "instances")), "prompt") == JString(r.prompt)
      && Field(Field(First(Field(BuildRequestBody(r), "instances")), "image"), "bytesBase64Encoded")
         == OptString(r.inputImage)
  {
    var top := BuildRequestBody(r).members;
    LookupFirst(top, 0);
    LookupFirst(top, 1);
    var params := Field(BuildRequestBody(r), "parameters").members;
    LookupFirst(params, 0);
    LookupFirst(params, 1);
    LookupFirst(params, 2);
    var instance := First(Field(BuildRequestBody(r), "instances")).members;
    LookupFirst(instance, 0);
    LookupFirst(instance, 1);
    LookupFirst(Field(First(Field(BuildRequestBody(r), "instances")), "image").members, 0);
    AspectRatioRoundTrip(r.parameters.width, r.parameters.height);
  }

  /** Qwen image edit gets the prompt and size, and the input and mask images as given. */
  lemma QwenBody(r: AIGenerationRequest)
    requires r.model == QwenImageEdit
    ensures var body := BuildRequestBody(r);
      Field(body, "prompt") == JString(r.prompt)
      && Field(body, "width") == JNumber(r.parameters.width as real)
      && Field(body, "height") == JNumber(r.parameters.height as real)
      && Field(body, "input_image") == OptString(r.inputImage)
      && Field(body, "mask_image") == OptString(r.maskImage)
  {
    var m := BuildRequestBody(r).members;
    LookupFirst(m, 0); LookupFirst(m, 1); LookupFirst(m, 2); LookupFirst(m, 3); LookupFirst(m, 4);
  }

  /** Any other model gets exactly the base body: the keys `prompt`, `width` and `height`. */
  lemma UnsupportedBody(r: AIGenerationRequest)
    requires r.model.Unsupported?
    ensures BuildRequestBody(r).JObject? && Keys(BuildRequestBody(r).members) == ["prompt", "width", "height"]
  {
  }

  // ---- Responses ----

  function ModelName(m: AIModel): string {
    match m
    case StableDiffusion => "stable-diffusion"
    case QwenImageEdit => "qwen-image-edit"
    case GoogleImagen => "google-imagen"
    case Unsupported(name) => name
  }

  /** Reading a property of `undefined` or `null` throws a `TypeError`. */
  const TypeErrorMessage: string := "TypeError"

  /**
   * `extractImageFromResponse`: Hugging Face models answer `generated_image`
   * or `[0].generated_image`; Imagen answers `predictions[0].bytesBase64Encoded`;
   * any other model throws. The first property read throws on a null or
   * undefined response.
   */
  function ExtractImageFromResponse(response: Json, model: AIModel): (r: Result<Json>)
    ensures model.Unsupported? ==> r == Err("Unsupported model: " + model.name)
    ensures !model.Unsupported? ==> (r.Err? <==> response.JUndefined? || response.JNull?)
    ensures !model.Unsupported? && r.Err? ==> r.message == TypeErrorMessage
  {
    match model
    case StableDiffusion => ExtractGenerated(response)
    case QwenImageEdit => ExtractGenerated(response)
    case GoogleImagen =>
      if response.JUndefined? || response.JNull? then Err(TypeErrorMessage)
      else Ok(Field(First(Field(response, "predictions")), "bytesBase64Encoded"))
    case Unsupported(name) => Err("Unsupported model: " + name)
  }

  /** `response.generated_image || response[0]?.generated_image`. */
  function ExtractGenerated(response: Json): (r: Result<Json>)
    ensures r.Err? <==> response.JUndefined? || response.JNull?
    ensures r.Err? ==> r.message == TypeErrorMessage
    ensures r.Ok? ==> (Truthy(r.value) <==>
      Truthy(Field(response, "generated_image")) || Truthy(Field(First(response), "generated_image")))
  {
    if response.JUndefined? || response.JNull? then Err(TypeErrorMessage)
    else
      var direct := Field(response, "generated_image");
      if Truthy(direct) then Ok(direct) else Ok(Field(First(response), "generated_image"))
  }

  /**
   * A Hugging Face object answer yields its first `generated_image` member
   * when that is truthy; an array answer whose first element is such an
   * object yields that member's value, truthy or not.
   */
  lemma ExtractHuggingFace(members: seq<(string, Json)>, k: nat, rest: seq<Json>, model: AIModel)
    requires model == StableDiffusion || model == QwenImageEdit
    requires k < |members| && members[k].0 == "generated_image"
    requires forall j :: 0 <= j < k ==> members[j].0 != "generated_image"
    ensures Truthy(members[k].1) ==> ExtractImageFromResponse(JObject(members), model) == Ok(members[k].1)
    ensures ExtractImageFromResponse(JArray([JObject(members)] + rest), model) == Ok(members[k].1)
  {
    LookupFirst(members, k);
  }

  /**
   * An Imagen answer whose first `predictions` member is an array starting with
   * an object yields that object's first `bytesBase64Encoded` member.
   */
  lemma ExtractImagen(members: seq<(string, Json)>, k: nat, predictions: seq<Json>, j: nat)
    requires k < |members| && members[k].0 == "predictions"
    requires forall i :: 0 <= i < k ==> members[i].0 != "predictions"
    requires members[k].1 == JArray(predictions) && |predictions| > 0 && predictions[0].JObject?
    requires j < |predictions[0].members| && predictions[0].members[j].0 == "bytesBase64Encoded"
    requires forall i :: 0 <= i < j ==> predictions[0].members[i].0 != "bytesBase64Encoded"
    ensures ExtractImageFromResponse(JObject(members), GoogleImagen) == Ok(predictions[0].members[j].1)
  {
    LookupFirst(members, k);
    LookupFirst(predictions[0].members, j);
  }

  // ---- Errors ----

  /** `HttpErrorResponse`: `clientError` is the message of an `ErrorEvent` payload, when there is one. */
  datatype HttpError = HttpError(clientError: Option<string>, status: int, message: string)

  // Each message is a headline followed by advice.
  const TryAgainLater: string := "Please try again later."
  const Msg401: string := "Authentication failed. " + "Please check your API token."
  const Msg403: string := "Access forbidden. " + "Please check your permissions."
  const Msg404: string := "API endpoint not found. " + "The model may have been moved or removed."
  const Msg410: string := "The API endpoint is no longer available. "
                          + "Please try a different model or check the API configuration."
  const Msg429: string := "Rate limit exceeded. " + TryAgainLater
  const Msg500: string := "Server error. " + TryAgainLater
  const Msg503: string := "Service temporarily unavailable. " + TryAgainLater

  predicate HasFixedMessage(status: int) {
    status == 401 || status == 403 || status == 404 || status == 410 || status == 429
    || status == 500 || status == 503
  }

  const ServerErrorPrefix: string := "Server error: "

  /** `handleError`'s message for a failed request. */
  function ErrorMessage(e: HttpError): (msg: string)
    ensures e.clientError.Some? ==> msg == "Client error: " + e.clientError.value
    ensures e.clientError.None? && e.status == 401 ==> msg == Msg401
    ensures e.clientError.None? && e.status == 403 ==> msg == Msg403
    ensures e.clientError.None? && e.status == 404 ==> msg == Msg404
    ensures e.clientError.None? && e.status == 410 ==> msg == Msg410
    ensures e.clientError.None? && e.status == 429 ==> msg == Msg429
    ensures e.clientError.None? && e.status == 500 ==> msg == Msg500
    ensures e.clientError.None? && e.status == 503 ==> msg == Msg503
    ensures e.clientError.None? && !HasFixedMessage(e.status) ==>
      msg == ServerErrorPrefix + Decimal.IntToString(e.status) + " - "
             + (if e.message != "" then e.message else "Unknown error")
  {
    if e.clientError.Some? then "Client error: " + e.clientError.value
    else if e.status == 401 then Msg401
    else if e.status == 403 then Msg403
    else if e.status == 404 then Msg404
    else if e.status == 410 then Msg410
    else if e.status == 429 then Msg429
    else if e.status == 500 then Msg500
    else if e.status == 503 then Msg503
    else ServerErrorPrefix + Decimal.IntToString(e.status) + " - "
         + (if e.message != "" then e.message else "Unknown error")
  }

  /** Reads the status back out of a generic server error message. */
  function StatusOfMessage(msg: string): Option<int> {
    var rest := Decimal.StripPrefix(ServerErrorPrefix, msg);
    if rest.None? then None
    else
      var n := Decimal.ReadInt(rest.value);
      if n.None? || Decimal.StripPrefix(" - ", n.value.1).None? then None else Some(n.value.0)
  }

  /** A server error without a fixed message names its status, and the status reads back. */
  lemma GenericMessageNamesStatus(e: HttpError)
    requires e.clientError.None? && !HasFixedMessage(e.status)
    ensures StatusOfMessage(ErrorMessage(e)) == Some(e.status)
  {
    var detail := if e.message != "" then e.message else "Unknown error";
    var tail := " - " + detail;
    assert ErrorMessage(e) == ServerErrorPrefix + (Decimal.IntToString(e.status) + tail);
    Decimal.StripPrefixConcat(ServerErrorPrefix, Decimal.IntToString(e.status) + tail);
    Decimal.ReadIntRoundTrip(e.status, tail);
    Decimal.StripPrefixConcat(" - ", detail);
  }

  /** No fixed message can be mistaken for a generic one: none of them names a status. */
  lemma FixedMessagesAreNotGeneric(e: HttpError)
    requires e.clientError.None? && HasFixedMessage(e.status)
    ensures StatusOfMessage(ErrorMessage(e)) == None
  {
    var msg := ErrorMessage(e);
    if e.status == 500 {
      NotServerErrorPrefix(msg, 12);
    } else if e.status == 503 {
      NotServerErrorPrefix(msg, 4);
    } else {
      NotServerErrorPrefix(msg, 0);
    }
  }

  lemma NotServerErrorPrefix(msg: string, k: nat)
    requires k < |ServerErrorPrefix| <= |msg| && msg[k] != ServerErrorPrefix[k]
    ensures StatusOfMessage(msg) == None
  {
    assert msg[..|ServerErrorPrefix|][k] == msg[k];
  }

  // ---- Retries ----

  function Pow2(k: nat): (p: nat)
    ensures p >= 1
  {
    if k == 0 then 1 else 2 * Pow2(k - 1)
  }

  const MaxRetries: nat := 3

  /**
   * The retry rule for the failure numbered `index` (from 0): a client error
   * (status 400 to 499) is never retried; otherwise attempt `index + 1` runs
   * after `1000 * 2^(index + 1)` ms while it is at most the third.
   */
  function RetryDelay(status: int, index: nat): (d: Option<nat>)
    ensures d.Some? <==> !(400 <= status < 500) && index < MaxRetries
  {
    if status != 0 && status >= 400 && status < 500 then None
    else if index + 1 > MaxRetries then None
    else Some(1000 * Pow2(index + 1))
  }

  /** The delays waited before each retry, for consecutive failures with these statuses. */
  function RetrySchedule(statuses: seq<int>): seq<nat> {
    Schedule(statuses, 0)
  }

  function Schedule(statuses: seq<int>, index: nat): seq<nat>
    decreases |statuses|
  {
    if statuses == [] then []
    else
      var d := RetryDelay(statuses[0], index);
      if d.None? then [] else [d.value] + Schedule(statuses[1..], index + 1)
  }

  /** At most three retries, waiting 2, 4 and then 8 seconds, and none after a client error. */
  lemma {:induction false} ScheduleShape(statuses: seq<int>, index: nat)
    requires index <= MaxRetries
    ensures |Schedule(statuses, index)| <= MaxRetries - index
    ensures |Schedule(statuses, index)| <= |statuses|
    ensures forall k :: 0 <= k < |Schedule(statuses, index)| ==>
      Schedule(statuses, index)[k] == 1000 * Pow2(index + k + 1) && !(400 <= statuses[k] < 500)
    decreases |statuses|
  {
    if statuses != [] && RetryDelay(statuses[0], index).Some? {
      ScheduleShape(statuses[1..], index + 1);
    }
  }

  lemma RetryScheduleShape(statuses: seq<int>)
    ensures |RetrySchedule(statuses)| <= 3 && |RetrySchedule(statuses)| <= |statuses|
    ensures RetrySchedule(statuses) <= [2000, 4000, 8000]
    ensures forall k :: 0 <= k < |RetrySchedule(statuses)| ==> !(400 <= statuses[k] < 500)
  {
    ScheduleShape(statuses, 0);
    var s := RetrySchedule(statuses);
    assert Pow2(1) == 2 && Pow2(2) == 4 && Pow2(3) == 8;
    assert forall k :: 0 <= k < |s| ==> s[k] == [2000, 4000, 8000][k];
  }

  // ---- Progress ----

  /** One tick of the simulated progress: up by 10 while below 90. */
  function ProgressTick(p: int): (q: int)
    ensures p < 90 ==> q == p + 10
    ensures p >= 90 ==> q == p
  {
    if p < 90 then p + 10 else p
  }

  function Ticks(p: int, n: nat): int
    decreases n
  {
    if n == 0 then p else Ticks(ProgressTick(p), n - 1)
  }

  /** From 0, after `n` ticks the progress is `min(10 n, 90)`: it never passes 90. */
  lemma {:induction false} TicksFromZero(n: nat)
    ensures Ticks(0, n) == if 10 * n <= 90 then 10 * n else 90
  {
    TicksFromMultiple(0, n);
  }

  lemma {:induction false} TicksFromMultiple(j: nat, n: nat)
    requires j <= 9
    ensures Ticks(10 * j, n) == if 10 * (j + n) <= 90 then 10 * (j + n) else 90
    decreases n
  {
    if n > 0 {
      if j < 9 {
        TicksFromMultiple(j + 1, n - 1);
      } else {
        TicksAtCap(n);
      }
    }
  }

  lemma {:induction false} TicksAtCap(n: nat)
    ensures Ticks(90, n) == 90
    decreases n
  {
    if n > 0 {
      TicksAtCap(n - 1);
    }
  }
}
