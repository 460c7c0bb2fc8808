/** Whole requests through `/generate`, with the chat-completion service's
    answer fixed by the lemma's requirements. */
module Scenarios {
  import opened Wrappers
  import opened Json
  import opened JsText
  import opened FieldExtractor
  import opened Normalizer
  import opened ReplyExamples
  import opened Server

  /** `{ materials: m }`, no model. */
  function Request(materials: string): Value
  {
    Obj(map["materials" := Str(materials)])
  }

  /** Acceptable materials without a model go to the default alias. */
  lemma DefaultRoute(materials: string)
    requires !InvalidMaterials(Some(Str(materials)))
    ensures Route(Request(materials)) == Forward(materials, DefaultAlias)
  {
    assert BodyProperty(Request(materials), "materials") == Some(Str(materials));
    assert BodyProperty(Request(materials), "model") == None;
  }

  /** The default model answers with a JSON object holding all seven keys and no
      truthy `error`: the caller gets 200 and exactly those seven values. */
  lemma JsonScenario(call: (string, string) -> Upstream, materials: string,
                     content: string, obj: map<string, Value>)
    requires !InvalidMaterials(Some(Str(materials)))
    requires call(Models[DefaultAlias], materials) == Reply(content, Some(Obj(obj)))
    requires HasRequiredFields(Obj(obj))
    requires "error" !in obj || !Truthy(obj["error"])
    ensures HandleGenerate(Request(materials), call)
            == Response(200, Envelope(true, Some(VerbatimData(obj)), Null))
  {
    DefaultRoute(materials);
    VerbatimErrorQuirk(content, obj);
  }

  /** The default model answers in plain text naming only a title and a
      functionality: the caller gets 200, those two values, and the sentinel in
      the other five fields. */
  lemma PlanterScenario(call: (string, string) -> Upstream, materials: string,
                        reply: string, parsed: Option<Value>)
    requires !InvalidMaterials(Some(Str(materials)))
    requires reply == Planter
    requires call(Models[DefaultAlias], materials) == Reply(reply, parsed)
    requires parsed.None? || !HasRequiredFields(parsed.value)
    ensures HandleGenerate(Request(materials), call)
            == Response(200, Envelope(true, Some(IdeaData(Idea("Planter", "Holds soil", NoData,
                                                                NoData, NoData, NoData, NoData))), Null))
  {
    DefaultRoute(materials);
    PlanterReply(reply, parsed);
    ExtractedSucceeds(reply, parsed);
  }

  /** The service refuses the key: 500 with the table's message. */
  lemma UnauthorizedScenario(call: (string, string) -> Upstream, materials: string)
    requires !InvalidMaterials(Some(Str(materials)))
    requires call(Models[DefaultAlias], materials) == Failed(Some(401))
    ensures HandleGenerate(Request(materials), call)
            == Response(500, Envelope(false, None, Str("Invalid API key")))
  {
    DefaultRoute(materials);
    StatusMessages();
    FailureResponse(DefaultAlias, Some(401));
  }

  /** The example materials "plastic bottles, cardboard" pass validation. */
  lemma BottlesAccepted()
    ensures !InvalidMaterials(Some(Str("plastic bottles, cardboard")))
  {
    MaterialsLengthBounds("plastic bottles, cardboard");
  }
}
