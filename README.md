# RecycleAI idea generator: the deterministic core of `server.js`

The service takes a list of waste materials, asks a chat-completion model for a
reuse idea with seven fields (title, functionality, manufacturing method,
environmental benefits, safety, applicable users, usage scenarios), and returns
the idea in a JSON envelope. This project models, in Dafny, the parts of
`server.js` that decide what the caller receives:

- **`extractField`**: three fixed text patterns tried in order. They are a
  labeled line `Label: …`, a quoted pair `"Label": "…"` and a bracketed
  heading `【Label】…`. The first capture is trimmed and each run of newlines
  becomes one space. When nothing matches, the result is the sentinel
  `"No data provided"`.
  - Each pattern is a hand-written scanner over `seq<char>`. It is proved equal
    to a declarative statement of what the regular expression matches:
    leftmost start, greedy `\s*`, lazy capture up to the lookahead, and `$`
    meaning end of input.
- **Normalisation** (the JSON-or-extract step of `generateIdea`). A reply that
  parses to an object holding all seven keys is passed on untouched. Any other
  reply is rebuilt field by field with `extractField` and the key→label map.
  The outcome of `JSON.parse` is an input: `None` when it throws.
- **The `/generate` handler**:
  - validation of `materials`;
  - alias resolution against the model catalogue, with its silent fallback to
    `claude-3-haiku`;
  - the upstream-status→message table;
  - the envelope, whose status, `success`, `data` and `error` all follow one
    truthiness test on `result.error`.

The chat-completion request is a function parameter, `call(modelId, materials)`.
It yields either a reply (content and parse outcome) or a failure with an
optional HTTP status. Upstream failures, timeouts and malformed response
bodies (where reading `choices[0].message.content` throws) are all `Failed`.
The last two carry no status.

Modules, one per file: `Wrappers` (Option), `JsText` (JavaScript string
primitives), `FieldExtractor`, `ExtractorExamples` (general facts about replies
made of labeled lines), `Json` (JSON values and truthiness), `Normalizer`,
`ReplyExamples` (the two-line reply `Title: Planter\nFunctionality: Holds soil`),
`Server`, and `Scenarios` (whole requests).

Fixed choices about JavaScript behaviour:

- `\s` and `trim()` use the ECMAScript WhiteSpace and LineTerminator code
  points (`JsText.IsSpace`).
- `\w` is `[A-Za-z0-9_]`.
- `materials.length` counts UTF-16 code units (`JsText.Utf16Length`).
- Labels are matched literally and case-sensitively, and need not start a line.
  `Food Safety:` serves the field `Safety`, but `Subtitle:` does not serve
  `Title`.

Points where the code's behaviour is easy to misread:

- An empty `materials` string is rejected with 400, because it is falsy.
- The status messages are the code's own strings ("Invalid API key", "Payment
  required", "Too many requests", "Model temporarily unavailable", "Generation
  failed").
- A complete JSON reply is passed on with its values untouched, so its fields
  need not be strings.
- A complete JSON reply that also carries a truthy `error` key is answered with
  500, `data: null` and that error value (`Server.VerbatimErrorQuirk`).

## Model

| member | source | states |
|---|---|---|
| JsText.SkipWhile | server.js:36 | the greedy run of a character class from `i`: every character before the result is in the class, and the one at the result is not (or the text ends) |
| JsText.Find | server.js:42 | `text.match` starts at the leftmost occurrence: the result occurs, nothing occurs between `from` and it, and `None` means no occurrence at all |
| JsText.Trim | server.js:43 | `trim()` yields a slice of the input with only whitespace removed before and after it, and the slice neither starts nor ends with whitespace |
| JsText.TrimUnchanged | server.js:43 | text that neither starts nor ends with whitespace is its own trim |
| JsText.CollapseNewlines | server.js:43 | `replace(/\n+/g, ' ')` leaves no newline and never lengthens the text |
| JsText.CollapseNewlineFree | server.js:43 | text without newlines is left unchanged |
| JsText.CollapseRun | server.js:43 | each maximal run of k ≥ 1 newlines becomes exactly one space, and the rest is processed in the same way |
| JsText.CollapseKeepsFirst | server.js:43 | a first character that is not a newline survives the replacement |
| JsText.CollapseKeepsLast | server.js:43 | a last character that is not a newline survives the replacement |
| JsText.CollapseTrimmed | server.js:43 | collapsing the newlines of trimmed text leaves it trimmed |
| JsText.Utf16Length | server.js:123 | `length` in UTF-16 units lies between the character count and twice it, and is 0 only for the empty string |
| JsText.BmpUtf16Length | server.js:123 | without astral characters, `length` equals the character count |
| FieldExtractor.NextLabelAheadCorrect | server.js:36 | the scan for the lookahead `\n[\w\s]+:` holds exactly when the lookahead's declarative statement does |
| FieldExtractor.NextStop | server.js:36 | the lazy capture stops at the first point where `\n[\w\s]+:` follows or the input ends |
| FieldExtractor.ScanLabeled | server.js:36 | pattern 1 matches if and only if `Label:` occurs anywhere. Its match is the leftmost `Label:`, then greedy whitespace, then the shortest capture before a stop point |
| FieldExtractor.QuotedAt | server.js:37 | pattern 2 at a fixed start: a match there is exactly `"Label":`, whitespace, `"`, a quote-free capture and the closing `"` |
| FieldExtractor.QuotedFrom | server.js:37 | the first start at or after `from` where pattern 2 matches, and none before it |
| FieldExtractor.ScanQuoted | server.js:37 | pattern 2 matches if and only if some start matches, and its match is the leftmost one |
| FieldExtractor.ScanBracketed | server.js:38 | pattern 3 matches if and only if `【Label】` occurs. Its capture runs from the first heading to the next `【` or the end |
| FieldExtractor.Capture | server.js:42-43 | `match[1]` is the slice between the capture bounds of a match of the pattern |
| FieldExtractor.FirstCapture | server.js:41-45 | the loop finds nothing if and only if no pattern matches |
| FieldExtractor.FirstCaptureIsFirst | server.js:41-44 | the loop returns the capture of the first pattern that matches |
| FieldExtractor.Clean | server.js:43 | the cleaned capture holds no newline and has no whitespace at either end |
| FieldExtractor.ExtractField | server.js:34-46 | every field value, sentinel included, holds no newline and has no whitespace at either end |
| FieldExtractor.ExtractFieldOrder | server.js:35-45 | result is the cleaned labeled-line capture if any; else the quoted capture; else the bracketed capture; else exactly "No data provided" |
| FieldExtractor.LeftmostUnique | server.js:42 | the leftmost occurrence is unique, so each pattern has at most one match |
| FieldExtractor.LabeledCaptureIs | server.js:36 | any match of pattern 1's declarative statement is the scanner's match |
| FieldExtractor.QuotedCaptureIs | server.js:37 | the leftmost match of pattern 2's declarative statement is the scanner's match |
| FieldExtractor.BracketedCaptureIs | server.js:38 | any match of pattern 3's declarative statement is the scanner's match |
| FieldExtractor.LabeledLineWins | server.js:36-43 | once `Label:` occurs, the labeled line matches and decides the field, whatever else the text holds |
| FieldExtractor.AbsentLabel | server.js:41-45 | a label that occurs nowhere in the text gives the sentinel, whatever other fields the text holds and in whichever form, since each of the three keys contains the label |
| FieldExtractor.QuotedCaptureHasNoQuote | server.js:37 | a quoted capture contains no `"` |
| FieldExtractor.BracketedCaptureHasNoOpen | server.js:38 | a bracketed capture contains no `【` |
| FieldExtractor.BracketedCaptureFollowsHeading | server.js:38 | a bracketed capture is the text right after the first heading, ending at the next `【` or at the end of the text |
| ExtractorExamples.CleanUnchanged | server.js:43 | cleaning leaves trimmed one-line text alone |
| ExtractorExamples.FirstLineSpan | server.js:36 | in `A: v\nB: w`, where `v` is a non-empty one-line value without whitespace at either end and `B` is a label of word characters and spaces starting with a word character, the match for `A` captures exactly `v`, stopped by the line `B:` |
| ExtractorExamples.LabeledCleaned | server.js:36-43 | a field read by pattern 1 is its capture, cleaned |
| ExtractorExamples.LabeledValue | server.js:36-43 | a one-line, trimmed capture is the field's value as it stands |
| ExtractorExamples.FirstLine | server.js:36-43 | in the reply `A: v\nB: w`, where `v` is a non-empty one-line value without whitespace at either end and `B` is a label of word characters and spaces starting with a word character, the field `A` reads `v` |
| ExtractorExamples.SecondLineSpan | server.js:36 | in `A: v\nB: w`, where `w` is a non-empty one-line value without whitespace at either end, `B` is such a label, and B's first character occurs nowhere in `A` or `v`, the match for `B` is on the second line and captures `w` to the end |
| ExtractorExamples.SecondLine | server.js:36-43 | in the reply `A: v\nB: w`, where `w` is a non-empty one-line value without whitespace at either end, `B` is a label of word characters and spaces starting with a word character, and B's first character occurs nowhere in `A` or `v`, the field `B` reads `w` |
| ExtractorExamples.MissingField | server.js:41-45 | a label whose first character occurs nowhere in `A`, `v`, `B` or `w` and is not `:`, a space or a newline gives the sentinel on `A: v\nB: w`, whatever quotes or brackets the reply holds |
| ExtractorExamples.LastLineSpan | server.js:36 | in `P` + `A: v`, where A's first character occurs nowhere in `P` and `v` is non-empty, does not start with whitespace and holds no `:`, the match for `A` captures `v` to the end of the text, across line breaks |
| ExtractorExamples.LabeledCollapsed | server.js:43 | a capture that is its own trim reads as its newline-collapsed form |
| ExtractorExamples.LastLine | server.js:36-43 | a label may sit inside a longer line such as `Food Safety:`, and a value spanning lines comes out with each newline run as one space |
| Json.FalsyValues | server.js:131 | `Truthy` (the tests `!materials` and `result.error ? … : …`) follows ECMAScript's ToBoolean: exactly `null`, `false`, `0` and `""` are falsy |
| Json.Property | server.js:131-143 | a property read on an object is present exactly for its keys, with the key's value |
| Normalizer.Position | server.js:84 | each field's place in the field list |
| Normalizer.RequiredFieldsAreKeys | server.js:84-99 | the seven required keys are exactly the output keys of the seven fields, one each, and distinct |
| Normalizer.KeyIsRequired | server.js:84-98 | `Key`, the output key written for each field, is the entry of `requiredFields` at that field's position |
| Normalizer.LabelIsPlainText | server.js:92-98 | `Label`, the label searched for each field, is a line label: non-empty text of word characters and spaces starting with a word character, so the patterns match it literally and a `Label:` line ends the previous field's capture |
| Normalizer.LabelIdentifiesField | server.js:92-98 | two fields have the same label if and only if they are the same field |
| Normalizer.HasRequiredFieldsMeansEveryKey | server.js:84-85 | `HasRequiredFields` (`requiredFields.every(field => field in result)`) holds if and only if the value is an object holding every field's output key |
| Normalizer.Normalize | server.js:82-99 | the reply is passed on untouched if and only if it parsed to an object holding all seven keys. Otherwise it is the record extracted from the raw text |
| Normalizer.ExtractIdeaField | server.js:91-99 | `ExtractIdea` builds the record in which each field is `extractField` of the content with that field's label |
| Normalizer.ExtractedFieldClean | server.js:91-99 | every field of a rebuilt record is defined, has no newline and is trimmed |
| ReplyExamples.PlanterTitle | server.js:36 | `Title: Planter\nFunctionality: Holds soil` gives title "Planter" |
| ReplyExamples.PlanterFunctionality | server.js:36 | the same reply gives functionality "Holds soil" |
| ReplyExamples.PlanterMissing | server.js:45 | labels starting with M, E, S, A or U are absent from that reply and read as the sentinel |
| ReplyExamples.PlanterMissingField | server.js:92-98 | the five other labels of the field map read as the sentinel |
| ReplyExamples.PlanterIdea | server.js:91-99 | the record rebuilt from that reply is ("Planter", "Holds soil", and five sentinels) |
| ReplyExamples.PlanterReply | server.js:82-99 | that reply, not being a complete JSON object, normalises to that record |
| Server.ResolveAlias | server.js:127 | the alias is always a catalogue key. A string key passes unchanged; anything else becomes `claude-3-haiku` |
| Server.ResolveAliasIdempotent | server.js:127 | resolving a resolved alias changes nothing |
| Server.UnknownModelUsesDefault | server.js:127 | an absent, non-string or unknown model silently becomes the default |
| Server.InvalidMaterials | server.js:123 | a request passes if and only if `materials` is a non-empty string of at most 200 UTF-16 units |
| Server.MaterialsLengthBounds | server.js:123 | more than 200 characters is always refused; 1 to 100 characters is always accepted |
| Server.BmpMaterials | server.js:123 | without astral characters, a request is refused if and only if the materials are empty or longer than 200 characters |
| Server.ErrorFor | server.js:105-110 | the message is never empty; a code other than 500 is the status itself; code 500 means the generic entry; a known status keeps its own code; a status outside the table, or none, gives "Generation failed" with code 500 |
| Server.ErrorMessageIdentifiesCode | server.js:105-110 | two statuses get the same message if and only if they get the same entry |
| Server.StatusMessages | server.js:105-110 | 401, 402, 429 and 503 get their own messages; 418, 500 and a missing status get "Generation failed" |
| Server.GenerateIdea | server.js:79-116 | a reply yields the normalised result. A failure yields the table's message with the upstream model id |
| Server.ErrorOf | server.js:131 | `result.error` is the object's own `error` key for a passed-on reply, absent for an extracted record, and the message for a failure |
| Server.VerbatimData | server.js:131-139 | `data` from a passed-on object holds exactly those of the seven keys it has, with their values untouched |
| Server.IdeaData | server.js:131-139 | `data` from an extracted record holds exactly the seven keys, each with its field |
| Server.DataOf | server.js:131-139 | `data` never holds a key outside the seven |
| Server.Respond | server.js:131-144 | status is 500 if and only if `result.error` is truthy, otherwise 200. `success` is true exactly for 200 and `data` is null exactly for 500. A 500 carries the truthy error value, and a 200 carries `error: null` with the seven fields |
| Server.ExtractedSucceeds | server.js:82-144 | a reply that is not a complete JSON object always gives 200 with the seven extracted fields |
| Server.VerbatimErrorQuirk | server.js:82-144 | a complete JSON object gives 500 if and only if its own `error` key is truthy. Otherwise it gives 200 with exactly its seven values |
| Server.FailureResponse | server.js:102-144 | any upstream failure gives 500, `data: null` and the table's message |
| Server.SuccessHasSevenKeys | server.js:131-144 | a 200 response's `data` has exactly the seven keys, whichever path produced them |
| Server.BodyProperty | server.js:121 | destructuring reads an object's property and finds nothing on an array |
| Server.Route | server.js:121-127 | rejected with the 400 body if and only if the materials are invalid. Otherwise forwarded with the materials string and a catalogue alias |
| Server.HandleGenerate | server.js:120-144 | the status is 400 exactly for rejected requests, and otherwise 200 or 500 |
| Server.RejectedWithoutCall | server.js:123-124 | a rejected request's response does not depend on the upstream service |
| Server.ValidRequestForwarded | server.js:121-144 | every valid request is answered with the envelope of `generateIdea` for its materials as given and its resolved alias, the upstream service being asked for that alias's catalogue id |
| Server.NamedModelForwarded | server.js:127-130 | a valid request naming a catalogue model is sent to exactly that model's id (e.g. `gpt-4` as `openai/gpt-4`) |
| Server.OmittedModelUsesDefault | server.js:121-130 | a valid request without `model` asks the default model with the materials as given |
| Scenarios.DefaultRoute | server.js:121-127 | acceptable materials without a model are forwarded to `claude-3-haiku` |
| Scenarios.JsonScenario | server.js:82-144 | a complete JSON reply without a truthy `error` yields 200, `success: true`, its seven values and `error: null` |
| Scenarios.PlanterScenario | server.js:82-144 | the two-line Planter reply yields 200 with title "Planter", functionality "Holds soil" and five sentinels |
| Scenarios.UnauthorizedScenario | server.js:102-144 | an upstream 401 yields 500 with error "Invalid API key" |
| Scenarios.BottlesAccepted | server.js:123 | the materials "plastic bottles, cardboard" pass validation |

## Left out

- Express setup, CORS, static files, `app.listen` and the browser launch
  (server.js:1-8, 29-31, 155-158). These are framework and OS side effects.
- The OpenRouter configuration, the prompt template and the axios request
  with its headers, sampling settings and 20-second timeout (server.js:11-19,
  49-77). These are network I/O. The call is the parameter `call`, and a
  timeout is a `Failed` outcome without a status.
- `JSON.parse` itself (server.js:83). It is a library call whose outcome is an
  input. Numbers are exact reals, so the model does not capture JavaScript's
  double rounding in truthiness (for example, `1e-400` parses to a falsy `0`).
- Console logging and the `NODE_ENV`-dependent `details` field (server.js:80,
  90, 103, 114). The field is built from a foreign exception message and is
  dropped from the envelope.
- The handler's outer `catch` and its "Internal server error" body
  (server.js:145-151). `generateIdea` catches everything itself, so this path
  is reached only when serialisation fails, which the model does not represent.
- A reply whose `content` is not a string (e.g. `null`). In the source,
  `text.match` then throws inside the fallback and the request ends as
  "Generation failed". The model's `Reply` always carries a string, and that
  case is a `Failed` outcome without a status.
- Lone UTF-16 surrogates. Dafny strings hold Unicode scalar values, so a lone
  surrogate cannot be written.
- Request bodies other than an object or an array. `express.json()` produces
  no others.
- A general regular-expression engine. Only the three fixed patterns are
  modelled, with labels taken as literal text.
