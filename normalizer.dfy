/** The JSON-or-extract step of `generateIdea` (server.js:82-99): a parsed reply
    that is an object holding all seven required keys is returned as it is;
    any other reply is rebuilt field by field with `extractField`. The outcome
    of `JSON.parse` is an input: `None` when it throws, `Some(v)` otherwise. */
module Normalizer {
  import opened Wrappers
  import opened Json
  import opened JsText
  import opened FieldExtractor

  /** The seven fields of a reuse idea. */
  datatype Field = Title | Functionality | Manufacturing | Benefits | Safety | Users | Scenarios

  const Fields: seq<Field> := [Title, Functionality, Manufacturing, Benefits, Safety, Users, Scenarios]

  /** The output key of each field. */
  function Key(f: Field): string
  {
    match f
    case Title => "title"
    case Functionality => "functionality"
    case Manufacturing => "manufacturing"
    case Benefits => "benefits"
    case Safety => "safety"
    case Users => "users"
    case Scenarios => "scenarios"
  }

  /** The human label searched for in a plain-text reply. */
  function Label(f: Field): string
  {
    match f
    case Title => "Title"
    case Functionality => "Functionality"
    case Manufacturing => "Manufacturing Method"
    case Benefits => "Environmental Benefits"
    case Safety => "Safety"
    case Users => "Applicable Users"
    case Scenarios => "Usage Scenarios"
  }

  /** Every label is plain text (letters and spaces, starting with a letter), so
      interpolating it into the three patterns adds no regular-expression
      syntax, and a line `Label: …` satisfies the lookahead `\n[\w\s]+:` that
      ends the previous field's capture. */
  lemma LabelIsPlainText(f: Field)
    ensures LineLabel(Label(f))
  {
    match f
    case Title => LettersLineLabel("Title");
    case Functionality => LettersLineLabel("Functionality");
    case Manufacturing => LettersLineLabel("Manufacturing Method");
    case Benefits => LettersLineLabel("Environmental Benefits");
    case Safety => LettersLineLabel("Safety");
    case Users => LettersLineLabel("Applicable Users");
    case Scenarios => LettersLineLabel("Usage Scenarios");
  }

  /** Text of letters and spaces that starts with a letter is a line label. */
  lemma LettersLineLabel(l: string)
    requires l != [] && 'A' <= l[0] <= 'Z'
    requires forall k :: 0 <= k < |l| ==> ('A' <= l[k] <= 'Z') || ('a' <= l[k] <= 'z') || l[k] == ' '
    ensures LineLabel(l)
  {
  }

  /** Distinct fields search for distinct labels. */
  lemma LabelIdentifiesField(f: Field, g: Field)
    ensures Label(f) == Label(g) <==> f == g
  {
    if Label(f) == Label(g) {
      var l, m := Label(f), Label(g);
      assert |l| == |m| && l[0] == m[0];
    }
  }

  /** `requiredFields`, in the source's order. */
  const RequiredFields: seq<string> :=
    ["title", "functionality", "manufacturing", "benefits", "safety", "users", "scenarios"]

  /** Where each field stands in `Fields` and `RequiredFields`. */
  function Position(f: Field): (i: nat)
    ensures i < |Fields| && Fields[i] == f
  {
    match f
    case Title => 0
    case Functionality => 1
    case Manufacturing => 2
    case Benefits => 3
    case Safety => 4
    case Users => 5
    case Scenarios => 6
  }

  /** The required keys are exactly the fields' output keys, one per field, so
      "all required keys present" means "every field present". */
  lemma RequiredFieldsAreKeys()
    ensures |RequiredFields| == |Fields|
    ensures forall i :: 0 <= i < |Fields| ==> RequiredFields[i] == Key(Fields[i])
    ensures forall f: Field, g: Field :: Key(f) == Key(g) ==> f == g
  {
  }

  /** Every field's key is required. */
  lemma KeyIsRequired(f: Field)
    ensures Key(f) == RequiredFields[Position(f)]
  {
    RequiredFieldsAreKeys();
  }

  /** The record built by text extraction. */
  datatype Idea = Idea(title: string, functionality: string, manufacturing: string,
                       benefits: string, safety: string, users: string, scenarios: string)

  function Get(idea: Idea, f: Field): string
  {
    match f
    case Title => idea.title
    case Functionality => idea.functionality
    case Manufacturing => idea.manufacturing
    case Benefits => idea.benefits
    case Safety => idea.safety
    case Users => idea.users
    case Scenarios => idea.scenarios
  }

  /** `requiredFields.every(field => field in result)`: only an object can hold
      the keys (`in` throws on a primitive, and an array has none of them). */
  predicate HasRequiredFields(v: Value)
  {
    v.Obj? && forall i :: 0 <= i < |RequiredFields| ==> RequiredFields[i] in v.fields
  }

  /** The required-keys test, stated per field: a value passes exactly when it
      is an object holding every field's output key. */
  lemma HasRequiredFieldsMeansEveryKey(v: Value)
    ensures HasRequiredFields(v) <==> v.Obj? && forall f: Field :: Key(f) in v.fields
  {
    RequiredFieldsAreKeys();
    if v.Obj? && forall f: Field :: Key(f) in v.fields {
      forall i | 0 <= i < |RequiredFields| ensures RequiredFields[i] in v.fields {
        assert RequiredFields[i] == Key(Fields[i]);
      }
    }
    if HasRequiredFields(v) {
      forall f: Field ensures Key(f) in v.fields {
        KeyIsRequired(f);
      }
    }
  }

  /** What the normaliser hands back. */
  datatype Normalized =
    | Verbatim(obj: map<string, Value>)   // the parsed object, untouched
    | Extracted(idea: Idea)               // rebuilt from the text

  /** The record rebuilt field by field: each field is `extractField` with its
      label, so it is trimmed and holds no newline. */
  function ExtractIdea(content: string): (idea: Idea)
  {
    Idea(ExtractField(content, Label(Title)),
         ExtractField(content, Label(Functionality)),
         ExtractField(content, Label(Manufacturing)),
         ExtractField(content, Label(Benefits)),
         ExtractField(content, Label(Safety)),
         ExtractField(content, Label(Users)),
         ExtractField(content, Label(Scenarios)))
  }

  /** The reply is passed through unchanged exactly when it parsed to an object
      holding all seven keys; otherwise it is extracted from the raw text. */
  function Normalize(content: string, parsed: Option<Value>): (r: Normalized)
    ensures r.Verbatim? <==> parsed.Some? && HasRequiredFields(parsed.value)
    ensures r.Verbatim? ==> parsed == Some(Obj(r.obj))
    ensures r.Extracted? ==> r.idea == ExtractIdea(content)
  {
    if parsed.Some? && HasRequiredFields(parsed.value) then Verbatim(parsed.value.fields)
    else Extracted(ExtractIdea(content))
  }

  /** Field `f` of the rebuilt record is `extractField(content, Label(f))`. */
  lemma ExtractIdeaField(content: string, f: Field)
    ensures Get(ExtractIdea(content), f) == ExtractField(content, Label(f))
  {
    match f
    case Title =>
    case Functionality =>
    case Manufacturing =>
    case Benefits =>
    case Safety =>
    case Users =>
    case Scenarios =>
  }

  /** Every extracted field is trimmed and on one line, whether it is the
      sentinel or a cleaned capture. */
  lemma ExtractedFieldClean(content: string, f: Field)
    ensures var v := Get(ExtractIdea(content), f);
            '\n' !in v && (v == [] || (!IsSpace(v[0]) && !IsSpace(v[|v| - 1])))
  {
    ExtractIdeaField(content, f);
    var v := ExtractField(content, Label(f));
    assert '\n' !in v;
  }
}
