/**
 What `getIPInfo` makes of the provider's reply once it has arrived: a
 provider error when the payload says so, a validation error when the payload
 does not fit the schema, the validated record otherwise, and no result at all
 when the request, the JSON decoding or a property read throws.
 */
module Classifier {
  import opened Wrappers
  import opened Json
  import opened Schema

  /** The request as far as the server sees it: the HTTP status with the
      decoded body, or an exception from the request or from decoding. */
  datatype Fetch = Response(status: nat, body: Json) | Thrown

  /** The result of `getIPInfo`. A failure is the object
      `{ error: true, message, reason, status }`; `NoResult` is `undefined`. */
  datatype Outcome =
    | Success(info: IPInfo)
    | Failure(message: Json, reason: Json, status: nat)
    | NoResult

  /** The message of a provider error whose payload carries none. */
  const UnknownError: string := "未知错误"

  /** The message of a validation error. */
  const ParseFailed: string := "IP信息解析失败"

  /** The validation library's description of why a payload was rejected; its
      wording is the library's own, and it is never empty. */
  type Diagnostic = s: string | s != "" witness "?"

  /** `data.error` is truthy: the provider reports a failure. */
  predicate ProviderError(body: Json)
  {
    Truthy(Prop(body, "error"))
  }

  function Classify(fetched: Fetch, diagnostic: Diagnostic): (r: Outcome)
    // An exception, or reading a property of a `null` payload, yields nothing.
    ensures r.NoResult? <==> fetched.Thrown? || fetched.body.JNull?
    // Every failure carries the HTTP status and a truthy message.
    ensures r.Failure? ==> fetched.Response? && r.status == fetched.status
    ensures r.Failure? ==> Truthy(Some(r.message))
    // A provider error wins over the schema.
    ensures fetched.Response? && ProviderError(fetched.body) ==> r.Failure?
    ensures fetched.Response? && ProviderError(fetched.body) ==>
      var body := fetched.body;
      && (Truthy(Prop(body, "message")) ==> Some(r.message) == Prop(body, "message"))
      && (!Truthy(Prop(body, "message")) ==> r.message == JStr(UnknownError))
      && (Truthy(Prop(body, "reason")) ==> Some(r.reason) == Prop(body, "reason"))
      && (!Truthy(Prop(body, "reason")) ==> r.reason == JStr(""))
    // Otherwise the schema decides.
    ensures r.Success? <==>
      fetched.Response? && !ProviderError(fetched.body) && Fits(fetched.body)
    ensures fetched.Response? && !fetched.body.JNull? && !ProviderError(fetched.body)
            && !Fits(fetched.body) ==>
      r == Failure(JStr(ParseFailed), JStr(diagnostic), fetched.status)
    // A validated record keeps the payload's schema fields.
    ensures r.Success? ==>
      forall k: Key :: FieldOf(r.info, k) == Prop(fetched.body, Name(k))
  {
    match fetched
    case Thrown => NoResult
    case Response(status, body) =>
      if body.JNull? then NoResult
      else if ProviderError(body) then
        Failure(Or(Prop(body, "message"), JStr(UnknownError)),
                Or(Prop(body, "reason"), JStr("")),
                status)
      else
        match Validate(body)
        case Some(info) => Success(info)
        case None => Failure(JStr(ParseFailed), JStr(diagnostic), status)
  }

  /** The provider-error outcome depends only on the payload's `message` and
      `reason` fields: the schema is never consulted. */
  lemma ProviderErrorIgnoresSchema(status: nat, a: Json, b: Json, diagnostic: Diagnostic)
    requires ProviderError(a) && ProviderError(b)
    requires Prop(a, "message") == Prop(b, "message")
    requires Prop(a, "reason") == Prop(b, "reason")
    ensures Classify(Response(status, a), diagnostic) == Classify(Response(status, b), diagnostic)
  {
  }

  /** An `error` field that is `false`, `0`, `""` or `null` is no provider
      error: the payload goes on to validation like one without the field. */
  lemma FalsyErrorIsIgnored(status: nat, fields: map<string, Json>, flag: Json, diagnostic: Diagnostic)
    requires flag in {JBool(false), JNum(0.0), JStr(""), JNull}
    requires "error" !in fields
    ensures Classify(Response(status, JObj(fields["error" := flag])), diagnostic)
         == Classify(Response(status, JObj(fields)), diagnostic)
  {
  }
}
