/** The decision logic of the AI service: which API key is in force, when a
    vendor client exists, how scenarios and prompts are chosen, how a model
    response is turned into an image data URL or an error, and how a key
    validation failure is classified. The vendor SDK is an oracle `Sdk` that
    answers a request sent through a client with a response or a rejection. */
module AiService {
  import opened Base
  import opened JsStrings
  import opened BrowserStorage

  /** The localStorage entry that holds a user-supplied key. */
  const ApiKeyStorageKey: string := "gemini_api_key"
  const DefaultScenarioId: string := "car_selfie"
  const AnalysisModel: string := "gemini-2.5-flash"
  const ImageModel: string := "gemini-2.5-flash-image-preview"
  const ValidationPrompt: string := "Hello"

  const NotInitializedMessage: string := "AI service not initialized. Please provide a valid API key."
  const InvalidKeyInputMessage: string := "Invalid API key provided"
  const NoImageMessage: string := "Model did not return an image."
  const UndefinedAnalysisPromptMessage: string := "Cannot read properties of undefined (reading 'analysisPrompt')"
  const KeyInvalidMarker: string := "API_KEY_INVALID"
  const InvalidKeyError: string := "Invalid API key"
  const ValidationFailedError: string := "Failed to validate API key"

  const Placeholder1: string := "{analysis1}"
  const Placeholder2: string := "{analysis2}"

  /** A preset from the scenario catalogue. */
  datatype Scenario = Scenario(id: string, name: string, icon: string, analysisPrompt: string, mainPrompt: string)

  /** Base64 payload and MIME type of an image part; either may be undefined. */
  datatype InlineData = InlineData(data: Option<string>, mimeType: Option<string>)
  /** A content part, carrying inline data, text, or neither. */
  datatype Part = Part(inlineData: Option<InlineData>, text: Option<string>)
  datatype Content = Content(parts: Option<seq<Part>>)
  datatype Candidate = Candidate(content: Option<Content>)
  /** A model response: its candidates and its `text` accessor. */
  datatype Response = Response(candidates: Option<seq<Candidate>>, text: Option<string>)
  /** What awaiting `generateContent` gives: a response, or a rejection whose
      `message` may be undefined. */
  datatype Reply = Resolved(response: Response) | Rejected(reason: Option<string>)

  /** A vendor client, bound to the key it was constructed with. */
  datatype Client = Client(apiKey: string)
  datatype Modality = Image | Text
  datatype Request = Request(model: string, parts: seq<Part>, responseModalities: seq<Modality>)
  /** The vendor SDK: the reply to a request sent through a client. */
  type Sdk = (Client, Request) -> Reply

  /** The argument of `setApiKey`, which may be any JavaScript value. */
  datatype KeyInput = KeyString(s: string) | NotAString

  /** The object `validateApiKey` resolves to. */
  datatype Validation = Valid | Invalid(error: string)

  /** A call that may send one request to the SDK: the request it sent, if it
      got that far, and what it returned or threw. */
  datatype Call<+T> = Call(sent: Option<Request>, result: Result<T>)

  function TextPart(text: string): Part {
    Part(None, Some(text))
  }

  /** `key && key.trim().length > 0`, read as a boolean. */
  predicate IsUsableKey(key: Option<string>) {
    key.Some? && |Trim(key.value)| > 0
  }

  /** `hasEnvironmentApiKey`: the build-time key is present and not blank. */
  predicate HasEnvironmentKey(envKey: Option<string>) {
    IsUsableKey(envKey)
  }

  /** `getApiKey`: a non-blank environment key wins, untrimmed; otherwise a
      non-empty stored key; otherwise none. */
  function ResolveApiKey(envKey: Option<string>, stored: Option<string>): (r: Option<string>)
    ensures HasEnvironmentKey(envKey) ==> r == envKey
    ensures !HasEnvironmentKey(envKey) ==> (r.Some? <==> stored.Some? && stored.value != "")
    ensures !HasEnvironmentKey(envKey) && r.Some? ==> r == stored
    ensures r.Some? ==> r.value != ""
  {
    if envKey.Some? && envKey.value != "" && |Trim(envKey.value)| > 0 then envKey
    else if stored.Some? && stored.value != "" then stored
    else None
  }

  /** `initializeAI`: a client exists exactly when some key resolves. */
  function ClientFor(key: Option<string>): (c: Option<Client>)
    ensures c.Some? <==> key.Some? && key.value != ""
    ensures c.Some? ==> c.value.apiKey == key.value
  {
    if key.Some? && key.value != "" then Some(Client(key.value)) else None
  }

  /** A key is available exactly when the environment key or the stored key
      holds a non-whitespace character; an environment key makes one
      available whatever is stored. */
  lemma {:induction false} AvailabilityCharacterised(envKey: Option<string>, stored: Option<string>)
    ensures IsUsableKey(ResolveApiKey(envKey, stored))
        <==> (envKey.Some? && !IsBlank(envKey.value)) || (stored.Some? && !IsBlank(stored.value))
    ensures HasEnvironmentKey(envKey) ==> IsUsableKey(ResolveApiKey(envKey, stored))
  {
    if envKey.Some? {
      TrimEmptyIffBlank(envKey.value);
    }
    if stored.Some? {
      TrimEmptyIffBlank(stored.value);
    }
  }

  /** After a trimmed key is stored, the client exists exactly when a key is
      available: a stored key is never a whitespace-only one. */
  lemma {:induction false} TrimmedKeyResolvesIffAvailable(envKey: Option<string>, key: string)
    ensures ClientFor(ResolveApiKey(envKey, Some(Trim(key)))).Some?
        <==> IsUsableKey(ResolveApiKey(envKey, Some(Trim(key))))
  {
    TrimIdempotent(key);
  }

  /** A non-empty whitespace-only key written to storage by other means
      still makes a client with that key when no environment key is in force,
      although no key counts as available. */
  lemma BlankStoredKeyStillMakesClient(envKey: Option<string>, s: string)
    requires !HasEnvironmentKey(envKey) && s != "" && IsBlank(s)
    ensures ClientFor(ResolveApiKey(envKey, Some(s))) == Some(Client(s))
    ensures !IsUsableKey(ResolveApiKey(envKey, Some(s)))
  {
    TrimEmptyIffBlank(s);
  }

  /** `setApiKey`'s guard: `!apiKey || typeof apiKey !== 'string'` throws. */
  predicate IsValidKeyInput(apiKey: KeyInput) {
    apiKey.KeyString? && apiKey.s != ""
  }

  /** The index `scenarios.find` stops at: the first scenario with the given
      id, or |scenarios| when there is none. */
  function ScenarioIndex(scenarios: seq<Scenario>, id: string): (k: nat)
    ensures k <= |scenarios|
    ensures forall j | 0 <= j < k :: scenarios[j].id != id
    ensures k < |scenarios| ==> scenarios[k].id == id
  {
    if scenarios == [] then 0
    else if scenarios[0].id == id then 0
    else 1 + ScenarioIndex(scenarios[1..], id)
  }

  /** `getScenarioById`: the first scenario whose id is equal, or undefined. */
  function GetScenarioById(scenarios: seq<Scenario>, id: string): (r: Option<Scenario>)
    ensures r.None? <==> forall j | 0 <= j < |scenarios| :: scenarios[j].id != id
    ensures r.Some? ==> r.value.id == id && r.value == scenarios[ScenarioIndex(scenarios, id)]
  {
    var k := ScenarioIndex(scenarios, id);
    if k < |scenarios| then Some(scenarios[k]) else None
  }

  /** `template.replace('{analysis1}', a1).replace('{analysis2}', a2)`; a
      template holding neither placeholder passes through unchanged. */
  function FillTemplate(template: string, analysis1: string, analysis2: string): (r: string)
    ensures IndexOf(template, Placeholder1).None? && IndexOf(template, Placeholder2).None? ==> r == template
  {
    ReplaceFirst(ReplaceFirst(template, Placeholder1, analysis1), Placeholder2, analysis2)
  }

  /** `createFinalPrompt`: the scenario's main prompt with both analyses
      filled in; an omitted id means 'car_selfie', and an unknown id throws. */
  function CreateFinalPrompt(scenarios: seq<Scenario>, analysis1: string, analysis2: string,
                             scenarioId: Option<string>): (r: Result<string>)
    ensures var id := scenarioId.GetOr(DefaultScenarioId);
      && (r.Throw? <==> forall j | 0 <= j < |scenarios| :: scenarios[j].id != id)
      && (r.Throw? ==> r.exception == Error("Scenario with id '" + id + "' not found"))
      && (r.Ok? ==> r.value == FillTemplate(scenarios[ScenarioIndex(scenarios, id)].mainPrompt, analysis1, analysis2))
  {
    var id := scenarioId.GetOr(DefaultScenarioId);
    match GetScenarioById(scenarios, id)
    case None => Throw(Error("Scenario with id '" + id + "' not found"))
    case Some(scenario) => Ok(FillTemplate(scenario.mainPrompt, analysis1, analysis2))
  }

  /** A placeholder begins with the only brace it holds. */
  lemma PlaceholderChars()
    ensures |Placeholder1| == 11 && |Placeholder2| == 11
    ensures Placeholder1[0] == '{' && Placeholder2[0] == '{'
    ensures forall k | 1 <= k < 11 :: Placeholder1[k] != '{' && Placeholder2[k] != '{'
    ensures Placeholder1[9] == '1' && Placeholder2[9] == '2'
  {
  }

  /** A template in which `{analysis1}` starts at i1, `{analysis2}` at i2, and
      no other brace opens. */
  predicate IsTemplate(template: string, i1: nat, i2: nat) {
    IsAt(template, Placeholder1, i1) && IsAt(template, Placeholder2, i2)
    && forall k | 0 <= k < |template| && template[k] == '{' :: k == i1 || k == i2
  }

  /** The two placeholders of a template do not overlap. */
  lemma PlaceholdersApart(template: string, i1: nat, i2: nat)
    requires IsTemplate(template, i1, i2)
    ensures i1 + 11 <= i2 || i2 + 11 <= i1
  {
    var t := template;
    PlaceholderChars();
    assert t[i1 + 9] == t[i1..i1 + 11][9] && t[i2 + 9] == t[i2..i2 + 11][9];
    assert t[i2] == t[i2..i2 + 11][0];
    assert t[i1] == t[i1..i1 + 11][0];
    forall k | i1 < k < i1 + 11 ensures t[k] != '{' { assert t[k] == t[i1..i1 + 11][k - i1]; }
    forall k | i2 < k < i2 + 11 ensures t[k] != '{' { assert t[k] == t[i2..i2 + 11][k - i2]; }
  }

  /** The first `{analysis1}` of a template is its own one. */
  lemma FirstPlaceholder1(template: string, i1: nat, i2: nat)
    requires IsTemplate(template, i1, i2)
    ensures IndexOf(template, Placeholder1) == Some(i1)
  {
    var t := template;
    PlaceholderChars();
    assert t[i2 + 9] == t[i2..i2 + 11][9];
    forall j: nat | j < i1 && j + 11 <= |t| ensures !IsAt(t, Placeholder1, j) {
      assert t[j..j + 11][0] == t[j] && t[j..j + 11][9] == t[j + 9];
    }
  }

  /** Filling a template whose `{analysis1}` comes first. */
  lemma FillFirstBeforeSecond(template: string, analysis1: string, analysis2: string, i1: nat, i2: nat)
    requires IsTemplate(template, i1, i2) && i1 < i2
    requires '$' !in analysis1 && '{' !in analysis1 && '$' !in analysis2
    ensures i1 + 11 <= i2
    ensures FillTemplate(template, analysis1, analysis2)
      == template[..i1] + analysis1 + template[i1 + 11..i2] + analysis2 + template[i2 + 11..]
  {
    var t := template;
    PlaceholderChars();
    PlaceholdersApart(t, i1, i2);
    FirstPlaceholder1(t, i1, i2);
    var m := ReplaceFirst(t, Placeholder1, analysis1);
    assert m == t[..i1] + analysis1 + t[i1 + 11..];
    var q := i2 - 11 + |analysis1|;
    assert m[q..q + 11] == t[i2..i2 + 11];
    forall j: nat | j < q && j + 11 <= |m| ensures !IsAt(m, Placeholder2, j) {
      assert m[j..j + 11][0] == m[j];
      if j < i1 {
        assert m[j] == t[j];
      } else if j < i1 + |analysis1| {
        assert m[j] == analysis1[j - i1];
      } else {
        assert m[j] == t[j - |analysis1| + 11];
      }
    }
    assert IsAt(m, Placeholder2, q);
    assert IndexOf(m, Placeholder2).Some?;
    assert m[..q] == t[..i1] + analysis1 + t[i1 + 11..i2];
    assert m[q + 11..] == t[i2 + 11..];
  }

  /** Filling a template whose `{analysis2}` comes first. */
  lemma FillSecondBeforeFirst(template: string, analysis1: string, analysis2: string, i1: nat, i2: nat)
    requires IsTemplate(template, i1, i2) && i2 < i1
    requires '$' !in analysis1 && '$' !in analysis2
    ensures i2 + 11 <= i1
    ensures FillTemplate(template, analysis1, analysis2)
      == template[..i2] + analysis2 + template[i2 + 11..i1] + analysis1 + template[i1 + 11..]
  {
    var t := template;
    PlaceholderChars();
    PlaceholdersApart(t, i1, i2);
    FirstPlaceholder1(t, i1, i2);
    var m := ReplaceFirst(t, Placeholder1, analysis1);
    assert m == t[..i1] + analysis1 + t[i1 + 11..];
    assert m[i2..i2 + 11] == t[i2..i2 + 11];
    forall j: nat | j < i2 && j + 11 <= |m| ensures !IsAt(m, Placeholder2, j) {
      assert m[j..j + 11][0] == m[j] && m[j] == t[j];
    }
    assert IsAt(m, Placeholder2, i2);
    assert IndexOf(m, Placeholder2).Some?;
    assert m[..i2] == t[..i2];
    assert m[i2 + 11..] == t[i2 + 11..i1] + analysis1 + t[i1 + 11..];
  }

  /** In a template whose only braces open one `{analysis1}` and one
      `{analysis2}`, with analyses free of `$` (and the first free of `{`),
      the two replacements fill exactly those two slots, whichever comes
      first. */
  lemma FillTemplateSubstitutes(template: string, analysis1: string, analysis2: string, i1: nat, i2: nat)
    requires IsTemplate(template, i1, i2)
    requires '$' !in analysis1 && '{' !in analysis1 && '$' !in analysis2
    ensures i1 + 11 <= i2 || i2 + 11 <= i1
    ensures i1 < i2 ==>
      FillTemplate(template, analysis1, analysis2)
        == template[..i1] + analysis1 + template[i1 + 11..i2] + analysis2 + template[i2 + 11..]
    ensures i2 < i1 ==>
      FillTemplate(template, analysis1, analysis2)
        == template[..i2] + analysis2 + template[i2 + 11..i1] + analysis1 + template[i1 + 11..]
  {
    PlaceholdersApart(template, i1, i2);
    if i1 < i2 {
      FillFirstBeforeSecond(template, analysis1, analysis2, i1, i2);
    } else {
      FillSecondBeforeFirst(template, analysis1, analysis2, i1, i2);
    }
  }

  /** The filled prompt contains both analyses. */
  lemma FillTemplateKeepsAnalyses(template: string, analysis1: string, analysis2: string, i1: nat, i2: nat)
    requires IsTemplate(template, i1, i2)
    requires '$' !in analysis1 && '{' !in analysis1 && '$' !in analysis2
    ensures Includes(FillTemplate(template, analysis1, analysis2), analysis1)
    ensures Includes(FillTemplate(template, analysis1, analysis2), analysis2)
  {
    FillTemplateSubstitutes(template, analysis1, analysis2, i1, i2);
    var t := template;
    if i1 < i2 {
      var head := t[..i1] + analysis1 + t[i1 + 11..i2];
      InfixOccurs(t[..i1], analysis1, t[i1 + 11..i2]);
      OccursInExtension(head, analysis2 + t[i2 + 11..], analysis1, i1);
      InfixOccurs(head, analysis2, t[i2 + 11..]);
      assert head + (analysis2 + t[i2 + 11..]) == head + analysis2 + t[i2 + 11..];
    } else {
      var head := t[..i2] + analysis2 + t[i2 + 11..i1];
      InfixOccurs(t[..i2], analysis2, t[i2 + 11..i1]);
      OccursInExtension(head, analysis1 + t[i1 + 11..], analysis2, i2);
      InfixOccurs(head, analysis1, t[i1 + 11..]);
      assert head + (analysis1 + t[i1 + 11..]) == head + analysis1 + t[i1 + 11..];
    }
  }

  lemma InfixOccurs(x: string, y: string, z: string)
    ensures IsAt(x + y + z, y, |x|)
  {
    assert (x + y + z)[|x|..|x| + |y|] == y;
  }

  lemma OccursInExtension(s: string, w: string, y: string, i: nat)
    requires IsAt(s, y, i)
    ensures IsAt(s + w, y, i)
  {
    assert (s + w)[i..i + |y|] == s[i..i + |y|];
  }

  /** The analysis prompt `analyzeImage` sends: the scenario's own, else the
      first scenario's; with an empty catalogue the fallback read throws. */
  function AnalysisPrompt(scenarios: seq<Scenario>, scenarioId: string): (r: Result<string>)
    ensures r.Ok? <==> scenarios != []
    ensures r.Ok? && GetScenarioById(scenarios, scenarioId).Some? ==>
      r.value == scenarios[ScenarioIndex(scenarios, scenarioId)].analysisPrompt
    ensures r.Ok? && GetScenarioById(scenarios, scenarioId).None? ==> r.value == scenarios[0].analysisPrompt
    ensures r.Throw? ==> r.exception == TypeError(UndefinedAnalysisPromptMessage)
  {
    match GetScenarioById(scenarios, scenarioId)
    case Some(scenario) => Ok(scenario.analysisPrompt)
    case None =>
      if scenarios == [] then Throw(TypeError(UndefinedAnalysisPromptMessage))
      else Ok(scenarios[0].analysisPrompt)
  }

  /** The prompt `generateImage` sends: a non-empty custom prompt wins (and
      the scenario is then never looked up), otherwise createFinalPrompt's. */
  function ImagePrompt(scenarios: seq<Scenario>, analysis1: string, analysis2: string, scenarioId: Option<string>,
                       customPrompt: Option<string>): (r: Result<string>)
    ensures customPrompt.Some? && customPrompt.value != "" ==> r == Ok(customPrompt.value)
    ensures (customPrompt.None? || customPrompt.value == "") ==>
      r == CreateFinalPrompt(scenarios, analysis1, analysis2, scenarioId)
  {
    if customPrompt.Some? && customPrompt.value != "" then Ok(customPrompt.value)
    else CreateFinalPrompt(scenarios, analysis1, analysis2, scenarioId)
  }

  function AnalysisRequest(imagePart: Part, prompt: string): Request {
    Request(AnalysisModel, [imagePart, TextPart(prompt)], [])
  }

  function ImageRequest(part1: Part, part2: Part, prompt: string): Request {
    Request(ImageModel, [part1, part2, TextPart(prompt)], [Image, Text])
  }

  function ValidationRequest(): Request {
    Request(AnalysisModel, [TextPart(ValidationPrompt)], [])
  }

  /** `response.candidates?.[0]?.content?.parts`: the parts of the first
      candidate, undefined when any link of the chain is missing. */
  function ResponseParts(response: Response): (r: Option<seq<Part>>)
    ensures r.Some? <==>
      response.candidates.Some? && |response.candidates.value| > 0
      && response.candidates.value[0].content.Some? && response.candidates.value[0].content.value.parts.Some?
    ensures r.Some? ==> r == response.candidates.value[0].content.value.parts
  {
    if response.candidates.Some? && |response.candidates.value| > 0
       && response.candidates.value[0].content.Some?
    then response.candidates.value[0].content.value.parts
    else None
  }

  /** A template-literal rendering of a possibly undefined string. */
  function Show(s: Option<string>): string {
    if s.Some? then s.value else "undefined"
  }

  /** `data:${mimeType};base64,${data}`: the scheme, the rendered MIME type,
      the base64 marker, and the rendered payload after them. */
  function DataUrl(d: InlineData): (r: string)
    ensures |r| == 13 + |Show(d.mimeType)| + |Show(d.data)|
    ensures r[..5] == "data:" && r[5..5 + |Show(d.mimeType)|] == Show(d.mimeType)
    ensures r[5 + |Show(d.mimeType)|..13 + |Show(d.mimeType)|] == ";base64,"
    ensures r[13 + |Show(d.mimeType)|..] == Show(d.data)
  {
    "data:" + Show(d.mimeType) + ";base64," + Show(d.data)
  }

  /** The index the `for (const part of parts)` loop returns at: the first
      part carrying inline data, or |parts| when none does. */
  function FirstInlineIndex(parts: seq<Part>): (k: nat)
    ensures k <= |parts|
    ensures forall j | 0 <= j < k :: parts[j].inlineData.None?
    ensures k < |parts| ==> parts[k].inlineData.Some?
  {
    if parts == [] then 0
    else if parts[0].inlineData.Some? then 0
    else 1 + FirstInlineIndex(parts[1..])
  }

  /** `response.text?.trim() || 'Model did not return an image.'`: never
      empty, the trimmed text when that has any non-whitespace character. */
  function NoImageError(text: Option<string>): (m: string)
    ensures m != ""
    ensures text.Some? && !IsBlank(text.value) ==> m == Trim(text.value)
    ensures text.None? || IsBlank(text.value) ==> m == NoImageMessage
  {
    if text.Some? then
      TrimEmptyIffBlank(text.value);
      if Trim(text.value) != "" then Trim(text.value) else NoImageMessage
    else
      NoImageMessage
  }

  /** What `generateImage` makes of the SDK's reply: the data URL of the first
      part that carries inline data; otherwise the trimmed response text (or
      the default message) thrown as an Error; a rejection passes through. */
  function ImageFromReply(reply: Reply): (r: Result<string>)
    ensures reply.Rejected? ==> r == Throw(Rejection(reply.reason))
    ensures reply.Resolved? ==>
      var parts := ResponseParts(reply.response).GetOr([]);
      (r.Ok? <==> exists k | 0 <= k < |parts| :: parts[k].inlineData.Some?)
      && (forall k | 0 <= k < |parts| && parts[k].inlineData.Some? && (forall j | 0 <= j < k :: parts[j].inlineData.None?)
            :: r == Ok(DataUrl(parts[k].inlineData.value)))
      && (r.Throw? ==> r == Throw(Error(NoImageError(reply.response.text))))
  {
    match reply
    case Rejected(reason) => Throw(Rejection(reason))
    case Resolved(response) =>
      var parts := ResponseParts(response).GetOr([]);
      var k := FirstInlineIndex(parts);
      if k < |parts| then Ok(DataUrl(parts[k].inlineData.value))
      else Throw(Error(NoImageError(response.text)))
  }

  /** `validateApiKey`: valid when a test request through a fresh client with
      that key succeeds; otherwise 'Invalid API key' exactly when the failure
      message contains API_KEY_INVALID, and the generic message else. */
  function ValidateApiKey(apiKey: string, sdk: Sdk): (v: Validation)
    ensures v == Valid <==> sdk(Client(apiKey), ValidationRequest()).Resolved?
    ensures v == Invalid(InvalidKeyError) <==>
      var reply := sdk(Client(apiKey), ValidationRequest());
      reply.Rejected? && reply.reason.Some? && exists i: nat :: IsAt(reply.reason.value, KeyInvalidMarker, i)
    ensures v == Valid || v == Invalid(InvalidKeyError) || v == Invalid(ValidationFailedError)
  {
    match sdk(Client(apiKey), ValidationRequest())
    case Resolved(_) => Valid
    case Rejected(reason) =>
      if reason.Some? && Includes(reason.value, KeyInvalidMarker) then Invalid(InvalidKeyError)
      else Invalid(ValidationFailedError)
  }

  /** `fileToGenerativePart` once the reader has produced its data URL: an
      inline-data part whose payload is the text after the first comma (up to
      any second comma), undefined when the URL has no comma, and whose MIME
      type is the file's own `type`, not read from the URL. */
  function GenerativePart(readerResult: string, fileType: Option<string>): (p: Part)
    ensures p.text.None? && p.inlineData.Some? && p.inlineData.value.mimeType == fileType
    ensures p.inlineData.value.data.None? <==> ',' !in readerResult
    ensures p.inlineData.value.data.Some? ==>
      ',' !in p.inlineData.value.data.value && IndexOf(readerResult, ",").Some?
      && FollowsFirstComma(readerResult, p.inlineData.value.data.value)
  {
    Part(Some(InlineData(SecondCommaField(readerResult), fileType)), None)
  }

  /** Reading back the data URL `generateImage` builds recovers its payload
      when neither it nor the MIME type holds a comma; the MIME type is the
      one given to the reader's file. */
  lemma {:induction false} DataUrlRoundTrip(data: string, mimeType: string)
    requires ',' !in data && ',' !in mimeType
    ensures GenerativePart(DataUrl(InlineData(Some(data), Some(mimeType))), Some(mimeType))
         == Part(Some(InlineData(Some(data), Some(mimeType))), None)
  {
    var url := DataUrl(InlineData(Some(data), Some(mimeType)));
    var prefix := "data:" + mimeType + ";base64";
    assert url == prefix + "," + data;
    var i := |prefix|;
    assert ',' !in prefix by {
      assert forall c | c in "data:" :: c != ',';
      assert forall c | c in ";base64" :: c != ',';
    }
    assert IsAt(url, ",", i) by { assert url[i..i + 1] == ","; }
    forall j: nat | j < i ensures !IsAt(url, ",", j) {
      IsAtChar(url, ',', j);
      assert url[j] == prefix[j];
    }
    assert IndexOf(url, ",") == Some(i);
    assert url[i + 1..] == data;
    forall j: nat ensures !IsAt(data, ",", j) { IsAtChar(data, ',', j); }
  }

  /** The service object: the build-time environment key, the shared
      localStorage, the scenario catalogue and the current vendor client. */
  class AIService {
    const envKey: Option<string>
    const storage: LocalStorage
    const scenarios: seq<Scenario>
    var ai: Option<Client>

    /** `new AIService()`: loads the catalogue and initialises the client. */
    constructor (envKey: Option<string>, storage: LocalStorage, scenarios: seq<Scenario>)
      ensures this.envKey == envKey && this.storage == storage && this.scenarios == scenarios
      ensures ai == ClientFor(GetApiKey())
    {
      this.envKey := envKey;
      this.storage := storage;
      this.scenarios := scenarios;
      ai := None;
      new;
      InitializeAI();
    }

    /** `getApiKey`: the environment key when it is not blank, otherwise
        the stored key when it is not empty, otherwise none. */
    function GetApiKey(): (r: Option<string>)
      reads storage
      ensures HasEnvironmentKey(envKey) ==> r == envKey
      ensures !HasEnvironmentKey(envKey) ==>
        (r.Some? <==> ApiKeyStorageKey in storage.items && storage.items[ApiKeyStorageKey] != "")
      ensures !HasEnvironmentKey(envKey) && r.Some? ==> r.value == storage.items[ApiKeyStorageKey]
    {
      ResolveApiKey(envKey, storage.GetItem(ApiKeyStorageKey))
    }

    /** `isApiKeyAvailable`: the environment key or the stored key has a
        non-whitespace character. */
    function IsApiKeyAvailable(): (b: bool)
      reads storage
      ensures b <==> ((envKey.Some? && !IsBlank(envKey.value))
                      || (ApiKeyStorageKey in storage.items && !IsBlank(storage.items[ApiKeyStorageKey])))
    {
      AvailabilityCharacterised(envKey, storage.GetItem(ApiKeyStorageKey));
      IsUsableKey(GetApiKey())
    }

    /** `hasEnvironmentApiKey`: the build-time key has a non-whitespace
        character. */
    function HasEnvironmentApiKey(): (b: bool)
      ensures b <==> envKey.Some? && !IsBlank(envKey.value)
    {
      if envKey.Some? then TrimEmptyIffBlank(envKey.value); HasEnvironmentKey(envKey)
      else HasEnvironmentKey(envKey)
    }

    /** `initializeAI`: a client for the resolved key, or none. */
    method InitializeAI()
      modifies this
      ensures ai == ClientFor(GetApiKey())
      ensures ai.Some? <==> GetApiKey().Some?
    {
      var apiKey := ResolveApiKey(envKey, storage.GetItem(ApiKeyStorageKey));
      if apiKey.Some? && apiKey.value != "" {
        ai := Some(Client(apiKey.value));
      } else {
        ai := None;
      }
    }

    /** `setApiKey`: rejects an empty or non-string key and leaves everything
        as it was; otherwise stores the trimmed key and re-initialises, after
        which the client exists exactly when a key is available. */
    method SetApiKey(apiKey: KeyInput) returns (outcome: Outcome)
      modifies this, storage
      ensures !IsValidKeyInput(apiKey) ==>
        outcome == Fail(Error(InvalidKeyInputMessage)) && storage.items == old(storage.items) && ai == old(ai)
      ensures IsValidKeyInput(apiKey) ==>
        outcome == Pass
        && storage.items == old(storage.items)[ApiKeyStorageKey := Trim(apiKey.s)]
        && ai == ClientFor(GetApiKey())
        && (ai.Some? <==> IsApiKeyAvailable())
      ensures IsValidKeyInput(apiKey) && IsBlank(apiKey.s) ==>
        (IsApiKeyAvailable() <==> HasEnvironmentApiKey())
    {
      if !(apiKey.KeyString? && apiKey.s != "") {
        return Fail(Error(InvalidKeyInputMessage));
      }
      storage.SetItem(ApiKeyStorageKey, Trim(apiKey.s));
      InitializeAI();
      TrimmedKeyResolvesIffAvailable(envKey, apiKey.s);
      TrimEmptyIffBlank(apiKey.s);
      outcome := Pass;
    }

    /** `analyzeImage`: throws without a client before sending anything;
        otherwise sends the image with the scenario's analysis prompt (the
        first scenario's for an unknown id; an omitted id means 'car_selfie')
        and returns the response text. */
    function AnalyzeImage(imagePart: Part, scenarioId: Option<string>, sdk: Sdk): (c: Call<Option<string>>)
      reads this
      ensures ai.None? ==> c == Call(None, Throw(Error(NotInitializedMessage)))
      ensures ai.Some? ==> (c.sent.Some? <==> scenarios != [])
      ensures ai.Some? && c.sent.None? ==> c.result == Throw(TypeError(UndefinedAnalysisPromptMessage))
      ensures c.sent.Some? ==>
        ai.Some? && c.sent.value == AnalysisRequest(imagePart, AnalysisPrompt(scenarios, scenarioId.GetOr(DefaultScenarioId)).value)
        && match sdk(ai.value, c.sent.value)
           case Resolved(response) => c.result == Ok(response.text)
           case Rejected(reason) => c.result == Throw(Rejection(reason))
    {
      if ai.None? then Call(None, Throw(Error(NotInitializedMessage)))
      else
        match AnalysisPrompt(scenarios, scenarioId.GetOr(DefaultScenarioId))
        case Throw(e) => Call(None, Throw(e))
        case Ok(prompt) =>
          var request := AnalysisRequest(imagePart, prompt);
          match sdk(ai.value, request)
          case Resolved(response) => Call(Some(request), Ok(response.text))
          case Rejected(reason) => Call(Some(request), Throw(Rejection(reason)))
    }

    /** `generateImage`: throws without a client before sending anything;
        otherwise sends both images with the custom or the filled-in prompt
        and returns the data URL of the first inline-data part of the reply. */
    method GenerateImage(part1: Part, part2: Part, analysis1: string, analysis2: string, scenarioId: Option<string>,
                         customPrompt: Option<string>, sdk: Sdk)
      returns (sent: Option<Request>, result: Result<string>)
      ensures ai.None? ==> sent == None && result == Throw(Error(NotInitializedMessage))
      ensures ai.Some? && ImagePrompt(scenarios, analysis1, analysis2, scenarioId, customPrompt).Throw? ==>
        sent == None && result == ImagePrompt(scenarios, analysis1, analysis2, scenarioId, customPrompt)
      ensures ai.Some? && ImagePrompt(scenarios, analysis1, analysis2, scenarioId, customPrompt).Ok? ==>
        sent == Some(ImageRequest(part1, part2, ImagePrompt(scenarios, analysis1, analysis2, scenarioId, customPrompt).value))
        && result == ImageFromReply(sdk(ai.value, sent.value))
    {
      if ai.None? {
        return None, Throw(Error(NotInitializedMessage));
      }
      var finalPrompt := if customPrompt.Some? && customPrompt.value != "" then Ok(customPrompt.value)
                         else CreateFinalPrompt(scenarios, analysis1, analysis2, scenarioId);
      if finalPrompt.Throw? {
        return None, finalPrompt;
      }
      var request := ImageRequest(part1, part2, finalPrompt.value);
      sent := Some(request);
      var reply := sdk(ai.value, request);
      if reply.Rejected? {
        return sent, Throw(Rejection(reply.reason));
      }
      var parts := ResponseParts(reply.response);
      if parts.Some? {
        var i := 0;
        while i < |parts.value|
          invariant i <= |parts.value|
          invariant forall j | 0 <= j < i :: parts.value[j].inlineData.None?
        {
          if parts.value[i].inlineData.Some? {
            return sent, Ok(DataUrl(parts.value[i].inlineData.value));
          }
          i := i + 1;
        }
      }
      result := Throw(Error(NoImageError(reply.response.text)));
    }

    /** `generateCarSelfie`: generateImage for the default scenario. */
    method GenerateCarSelfie(part1: Part, part2: Part, analysis1: string, analysis2: string,
                             customPrompt: Option<string>, sdk: Sdk)
      returns (sent: Option<Request>, result: Result<string>)
      ensures ai.None? ==> sent == None && result == Throw(Error(NotInitializedMessage))
      ensures ai.Some? && ImagePrompt(scenarios, analysis1, analysis2, Some(DefaultScenarioId), customPrompt).Throw? ==>
        sent == None && result == ImagePrompt(scenarios, analysis1, analysis2, Some(DefaultScenarioId), customPrompt)
      ensures ai.Some? && ImagePrompt(scenarios, analysis1, analysis2, Some(DefaultScenarioId), customPrompt).Ok? ==>
        sent == Some(ImageRequest(part1, part2, ImagePrompt(scenarios, analysis1, analysis2, Some(DefaultScenarioId), customPrompt).value))
        && result == ImageFromReply(sdk(ai.value, sent.value))
    {
      sent, result := GenerateImage(part1, part2, analysis1, analysis2, Some(DefaultScenarioId), customPrompt, sdk);
    }
  }
}
