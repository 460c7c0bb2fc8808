/** The `/generate` route (server.js:120-152) and the parts of `generateIdea`
    (server.js:48-118) that decide its answer: the model catalogue and the alias
    fallback, the check on `materials`, the upstream-status table, the choice
    between the normalised reply and an error record, and the JSON envelope.
    The request to the chat-completion service is a function parameter: given
    the upstream model id and the materials, it yields the reply or a failure. */
module Server {
  import opened Wrappers
  import opened Json
  import opened JsText
  import opened Normalizer

  // ---------------------------------------------------------------------------
  // Model catalogue (server.js:22-27) and alias resolution (server.js:127)

  const DefaultAlias: string := "claude-3-haiku"

  /** `MODELS`: public alias to upstream model id. */
  const Models: map<string, string> :=
    map["claude-3-haiku" := "anthropic/claude-3-haiku",
        "gpt-4" := "openai/gpt-4",
        "llama3-70b" := "meta-llama/llama-3-70b-instruct",
        "mixtral" := "mistralai/mixtral-8x7b-instruct"]

  /** `Object.keys(MODELS).includes(model) ? model : 'claude-3-haiku'`: only a
      string equal to a catalogue key passes; anything else, an absent model
      included, silently becomes the default. */
  function ResolveAlias(model: Option<Value>): (alias: string)
    ensures alias in Models
    ensures alias == DefaultAlias || model == Some(Str(alias))
    ensures model.Some? && model.value.Str? && model.value.s in Models ==> alias == model.value.s
  {
    match model
    case Some(Str(k)) => if k in Models then k else DefaultAlias
    case _ => DefaultAlias
  }

  /** Resolving a resolved alias changes nothing. */
  lemma ResolveAliasIdempotent(model: Option<Value>)
    ensures ResolveAlias(Some(Str(ResolveAlias(model)))) == ResolveAlias(model)
  {
  }

  /** A request without a `model` field, or with a model outside the
      catalogue, is served by the default model. */
  lemma UnknownModelUsesDefault(model: Option<Value>)
    requires model.None? || !model.value.Str? || model.value.s !in Models
    ensures ResolveAlias(model) == DefaultAlias
  {
  }

  // ---------------------------------------------------------------------------
  // Input validation (server.js:123)

  const MaxMaterials: nat := 200

  /** `!materials || typeof materials !== 'string' || materials.length > 200`:
      the request is refused unless `materials` is a non-empty string of at most
      200 UTF-16 code units. */
  function InvalidMaterials(materials: Option<Value>): (bad: bool)
    ensures !bad <==> materials.Some? && materials.value.Str?
                      && materials.value.s != [] && Utf16Length(materials.value.s) <= MaxMaterials
  {
    !TruthyProperty(materials) || !materials.value.Str? || Utf16Length(materials.value.s) > MaxMaterials
  }

  /** In characters: more than 200 is always refused and a non-empty string of
      at most 100 is always accepted; between the two it depends on how many
      characters lie outside the Basic Multilingual Plane. */
  lemma MaterialsLengthBounds(s: string)
    ensures |s| > MaxMaterials ==> InvalidMaterials(Some(Str(s)))
    ensures s != [] && 2 * |s| <= MaxMaterials ==> !InvalidMaterials(Some(Str(s)))
  {
  }

  /** Without astral characters the limit is exactly 200 characters. */
  lemma BmpMaterials(s: string)
    requires forall i :: 0 <= i < |s| ==> InBmp(s[i])
    ensures InvalidMaterials(Some(Str(s))) <==> s == [] || |s| > MaxMaterials
  {
    BmpUtf16Length(s);
  }

  // ---------------------------------------------------------------------------
  // Upstream status to error message (server.js:105-110)

  datatype ErrorInfo = ErrorInfo(code: int, message: string)

  /** The statuses the table knows. */
  const ErrorTable: map<int, ErrorInfo> :=
    map[401 := ErrorInfo(401, "Invalid API key"),
        402 := ErrorInfo(402, "Payment required"),
        429 := ErrorInfo(429, "Too many requests"),
        503 := ErrorInfo(503, "Model temporarily unavailable")]

  /** What any other status, or a failure without a status, maps to. */
  const GenericError: ErrorInfo := ErrorInfo(500, "Generation failed")

  /** `{...}[error.response?.status] || { code: 500, ... }`: a known status gives
      its own entry, anything else the generic one. The message is never empty,
      which is what later makes the envelope a failure. */
  function ErrorFor(status: Option<int>): (info: ErrorInfo)
    ensures info.message != []
    ensures info.code == GenericError.code || status == Some(info.code)
    ensures info.code == GenericError.code <==> info == GenericError
    ensures status.Some? && status.value in ErrorTable ==> info.code == status.value
    ensures status.None? || status.value !in ErrorTable ==> info == GenericError
  {
    if status.Some? && status.value in ErrorTable then ErrorTable[status.value] else GenericError
  }

  /** Each message names one outcome: equal messages come from equal entries,
      so distinct known statuses are never reported alike. */
  lemma ErrorMessageIdentifiesCode(a: Option<int>, b: Option<int>)
    ensures ErrorFor(a).message == ErrorFor(b).message <==> ErrorFor(a) == ErrorFor(b)
  {
    var x, y := ErrorFor(a), ErrorFor(b);
    if x.message == y.message {
      assert x.message[0] == y.message[0] && x.message[1] == y.message[1];
    }
  }

  /** The four known statuses keep their own messages; a status outside the
      table, or none at all, reads as the generic failure. */
  lemma StatusMessages()
    ensures ErrorFor(Some(401)).message == "Invalid API key"
    ensures ErrorFor(Some(402)).message == "Payment required"
    ensures ErrorFor(Some(429)).message == "Too many requests"
    ensures ErrorFor(Some(503)).message == "Model temporarily unavailable"
    ensures ErrorFor(Some(418)) == GenericError
    ensures ErrorFor(Some(500)) == GenericError
    ensures ErrorFor(None) == GenericError
  {
  }

  // ---------------------------------------------------------------------------
  // generateIdea's answer (server.js:79-117)

  /** What the chat-completion request yields: the first choice's text with the
      outcome of `JSON.parse` on it, or a failure with the HTTP status when
      there was a response. */
  datatype Upstream =
    | Reply(content: string, parsed: Option<Value>)
    | Failed(status: Option<int>)

  /** What `generateIdea` resolves to. */
  datatype Generation =
    | Generated(result: Normalized)
    | GenerationError(error: string, model: string)

  /** A reply is normalised; a failure becomes the table's message together
      with the upstream model id that was asked. */
  function GenerateIdea(alias: string, outcome: Upstream): (g: Generation)
    requires alias in Models
    ensures outcome.Reply? <==> g.Generated?
    ensures g.Generated? ==> g.result == Normalize(outcome.content, outcome.parsed)
    ensures g.GenerationError? ==> g.error == ErrorFor(outcome.status).message
                                   && g.model == Models[alias]
  {
    match outcome
    case Reply(content, parsed) => Generated(Normalize(content, parsed))
    case Failed(status) => GenerationError(ErrorFor(status).message, Models[alias])
  }

  /** `result.error`: a parsed object's own `error` property, nothing on an
      extracted record, the message on an error record. */
  function ErrorOf(g: Generation): (e: Option<Value>)
    ensures g.Generated? && g.result.Extracted? ==> e.None?
    ensures g.Generated? && g.result.Verbatim? ==> e == Property(g.result.obj, "error")
    ensures g.GenerationError? ==> e == Some(Str(g.error))
  {
    match g
    case Generated(Verbatim(obj)) => Property(obj, "error")
    case Generated(Extracted(_)) => None
    case GenerationError(message, _) => Some(Str(message))
  }

  // ---------------------------------------------------------------------------
  // The envelope (server.js:131-144)

  /** The `data` object copied from a parsed reply: the seven keys that it holds,
      with their values untouched; `res.json` drops a key whose value is
      `undefined`. */
  function VerbatimData(obj: map<string, Value>): (data: map<string, Value>)
    ensures forall k :: k in data <==> k in RequiredFields && k in obj
    ensures forall k :: k in data ==> data[k] == obj[k]
  {
    map k | k in RequiredFields && k in obj :: obj[k]
  }

  /** The `data` object copied from an extracted record: each field under its key. */
  function IdeaData(idea: Idea): (data: map<string, Value>)
    ensures forall k :: k in data <==> k in RequiredFields
    ensures forall f: Field :: Key(f) in data && data[Key(f)] == Str(Get(idea, f))
  {
    map["title" := Str(idea.title),
        "functionality" := Str(idea.functionality),
        "manufacturing" := Str(idea.manufacturing),
        "benefits" := Str(idea.benefits),
        "safety" := Str(idea.safety),
        "users" := Str(idea.users),
        "scenarios" := Str(idea.scenarios)]
  }

  /** `{ title: result.title, ..., scenarios: result.scenarios }`; an error
      record has none of the seven properties. */
  function DataOf(g: Generation): (data: map<string, Value>)
    ensures forall k :: k in data ==> k in RequiredFields
  {
    match g
    case Generated(Verbatim(obj)) => VerbatimData(obj)
    case Generated(Extracted(idea)) => IdeaData(idea)
    case GenerationError(_, _) => map[]
  }

  /** A response body: the 400 rejection, or the success/failure envelope whose
      `data` is `None` for `null`. */
  datatype Body =
    | Rejection(message: string)
    | Envelope(success: bool, data: Option<map<string, Value>>, error: Value)

  datatype Response = Response(status: int, body: Body)

  /** One truthiness test on `result.error` drives the status, `success`, `data`
      and `error` together: a truthy error gives 500 with no data and that error
      value; otherwise 200 with the seven copied fields and `error: null`. */
  function Respond(g: Generation): (resp: Response)
    ensures resp.body.Envelope?
    ensures resp.status == 500 <==> TruthyProperty(ErrorOf(g))
    ensures resp.status == 200 || resp.status == 500
    ensures resp.body.success <==> resp.status == 200
    ensures resp.body.data.None? <==> resp.status == 500
    ensures resp.status == 500 ==> resp.body.error == ErrorOf(g).value && Truthy(resp.body.error)
    ensures resp.status == 200 ==> resp.body.error == Null && resp.body.data == Some(DataOf(g))
  {
    var failed := TruthyProperty(ErrorOf(g));
    Response(if failed then 500 else 200,
             Envelope(!failed,
                      if failed then None else Some(DataOf(g)),
                      if failed then ErrorOf(g).value else Null))
  }

  /** A reply that is not a complete JSON object always succeeds, and its data
      holds the seven extracted fields. */
  lemma ExtractedSucceeds(content: string, parsed: Option<Value>)
    requires parsed.None? || !HasRequiredFields(parsed.value)
    ensures var resp := Respond(Generated(Normalize(content, parsed)));
            resp.status == 200 && resp.body.success && resp.body.error == Null
            && resp.body.data == Some(IdeaData(ExtractIdea(content)))
  {
  }

  /** A complete JSON object is reported as a failure exactly when its own
      `error` key is truthy, even though all seven fields are there; otherwise
      its seven values reach the caller untouched and nothing else does. */
  lemma VerbatimErrorQuirk(content: string, obj: map<string, Value>)
    requires HasRequiredFields(Obj(obj))
    ensures var resp := Respond(Generated(Normalize(content, Some(Obj(obj)))));
            && (resp.status == 500 <==> "error" in obj && Truthy(obj["error"]))
            && (resp.status == 500 ==> resp.body == Envelope(false, None, obj["error"]))
            && (resp.status == 200 ==> resp.body.data.Some?
                                       && (forall k :: k in resp.body.data.value <==> k in RequiredFields)
                                       && (forall k :: k in resp.body.data.value ==> resp.body.data.value[k] == obj[k]))
  {
    var g := Generated(Normalize(content, Some(Obj(obj))));
    assert g.result == Verbatim(obj);
    assert ErrorOf(g) == Property(obj, "error");
  }

  /** An upstream failure always ends in a 500 whose error is the table's
      message for the status. */
  lemma FailureResponse(alias: string, status: Option<int>)
    requires alias in Models
    ensures Respond(GenerateIdea(alias, Failed(status)))
            == Response(500, Envelope(false, None, Str(ErrorFor(status).message)))
  {
  }

  /** A successful response carries exactly the seven keys, whichever tier
      produced them. */
  lemma SuccessHasSevenKeys(content: string, parsed: Option<Value>)
    ensures var resp := Respond(Generated(Normalize(content, parsed)));
            resp.status == 200 ==> forall k :: k in resp.body.data.value <==> k in RequiredFields
  {
    if parsed.Some? && HasRequiredFields(parsed.value) {
      var obj := parsed.value.fields;
      forall k | k in RequiredFields ensures k in obj {
        var i :| 0 <= i < |RequiredFields| && RequiredFields[i] == k;
      }
    }
  }

  // ---------------------------------------------------------------------------
  // The route (server.js:120-144)

  /** `const { materials, model } = req.body`: `express.json()` leaves an object
      or an array in the body; an array has neither property. */
  function BodyProperty(body: Value, key: string): (p: Option<Value>)
    ensures body.Obj? ==> p == Property(body.fields, key)
    ensures !body.Obj? ==> p.None?
  {
    if body.Obj? then Property(body.fields, key) else None
  }

  const InvalidInput: Response := Response(400, Rejection("Invalid input materials"))

  /** Where a request goes before any upstream call: refused, or forwarded with
      its materials and a catalogue alias. */
  datatype Dispatch =
    | Reject(response: Response)
    | Forward(materials: string, alias: string)

  function Route(body: Value): (d: Dispatch)
    ensures d.Reject? <==> InvalidMaterials(BodyProperty(body, "materials"))
    ensures d.Reject? ==> d.response == InvalidInput
    ensures d.Forward? ==> && BodyProperty(body, "materials") == Some(Str(d.materials))
                           && d.materials != [] && Utf16Length(d.materials) <= MaxMaterials
                           && d.alias == ResolveAlias(BodyProperty(body, "model"))
                           && d.alias in Models
  {
    var materials := BodyProperty(body, "materials");
    if InvalidMaterials(materials) then Reject(InvalidInput)
    else Forward(materials.value.s, ResolveAlias(BodyProperty(body, "model")))
  }

  /** The whole handler: a refused request is answered without consulting
      `call`; a forwarded one asks for the alias's upstream model. */
  function HandleGenerate(body: Value, call: (string, string) -> Upstream): (resp: Response)
    ensures resp.status == 400 <==> Route(body).Reject?
    ensures resp.status == 200 || resp.status == 400 || resp.status == 500
  {
    match Route(body)
    case Reject(r) => r
    case Forward(materials, alias) => Respond(GenerateIdea(alias, call(Models[alias], materials)))
  }

  /** 400 exactly for bad materials, with a body that does not depend on the
      upstream service at all. */
  lemma RejectedWithoutCall(body: Value, call: (string, string) -> Upstream,
                            other: (string, string) -> Upstream)
    requires InvalidMaterials(BodyProperty(body, "materials"))
    ensures HandleGenerate(body, call) == HandleGenerate(body, other) == InvalidInput
  {
  }

  /** Every valid request is answered with the envelope of `generateIdea` for its
      materials, as given, and its resolved alias, whose catalogue id is what
      the upstream service is asked for. */
  lemma ValidRequestForwarded(body: Value, call: (string, string) -> Upstream)
    requires !InvalidMaterials(BodyProperty(body, "materials"))
    ensures var s := BodyProperty(body, "materials").value.s;
            var a := ResolveAlias(BodyProperty(body, "model"));
            HandleGenerate(body, call) == Respond(GenerateIdea(a, call(Models[a], s)))
  {
  }

  /** A valid request naming a catalogue model asks for exactly that model's id
      (`gpt-4` is sent as `openai/gpt-4`). */
  lemma NamedModelForwarded(body: Value, call: (string, string) -> Upstream, alias: string)
    requires !InvalidMaterials(BodyProperty(body, "materials"))
    requires alias in Models && BodyProperty(body, "model") == Some(Str(alias))
    ensures var s := BodyProperty(body, "materials").value.s;
            HandleGenerate(body, call) == Respond(GenerateIdea(alias, call(Models[alias], s)))
  {
    ValidRequestForwarded(body, call);
  }

  /** A valid request whose body has no `model` is sent to the default model,
      with the materials as given. */
  lemma OmittedModelUsesDefault(body: Value, call: (string, string) -> Upstream)
    requires body.Obj? && "model" !in body.fields
    requires !InvalidMaterials(BodyProperty(body, "materials"))
    ensures var s := body.fields["materials"].s;
            HandleGenerate(body, call)
            == Respond(GenerateIdea(DefaultAlias, call(Models[DefaultAlias], s)))
  {
  }
}
