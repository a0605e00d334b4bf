/** The AI service (`ai/GeminiAIService.kt`): the preference store holding
    the API key and the assistant configuration, the key guard in front of
    every request, the prompt built for each of the seven request kinds, the
    decision table that turns an HTTP response into an `AIResponse`, and the
    post-filter over the suggestions found in a reply. The HTTP exchange and
    the regular-expression engine are parameters. */
module GeminiAI {
  import opened Wrappers
  import opened Seqs
  import opened Strings

  const ModelGeminiPro := "gemini-pro"
  const ModelGeminiProVision := "gemini-pro-vision"
  const ModelGeminiFlash := "gemini-1.5-flash"

  const KeyApiKey := "gemini_api_key"
  const KeySelectedModel := "selected_model"
  const KeyContextEnabled := "context_enabled"
  const KeyAutoComplete := "auto_complete_enabled"
  const KeyCodeReview := "code_review_enabled"

  /** The `maxTokens` every configuration read from the store carries. */
  const DefaultMaxTokens := 2048

  /** `AIConfig` (the float `temperature` is not modelled). */
  datatype AIConfig = AIConfig(model: string := ModelGeminiFlash, contextEnabled: bool := true,
                               autoCompleteEnabled: bool := true, codeReviewEnabled: bool := true,
                               maxTokens: int := DefaultMaxTokens)

  /** `CodeContext`: where the user is and what is in scope there. */
  datatype CodeContext = CodeContext(currentFile: string := "", currentLine: int := 0,
                                     selectedText: string := "", surroundingCode: string := "",
                                     projectType: string := "python", imports: seq<string> := [],
                                     variables: seq<string> := [], functions: seq<string> := [])

  /** `AIResponse`. */
  datatype AIResponse =
    | Success(content: string, suggestions: seq<string> := [])
    | Error(message: string, code: Option<int> := None)
    | Loading

  /** The seven subclasses of `AIRequest`. */
  datatype RequestKind = CodeCompletion | CodeExplanation | CodeReview | BugFix
                       | CodeOptimization | GenerateDocstring | CustomQuery

  /** `AIRequest`: every subclass holds a code context and one text, its
      `partialCode`, `code`, `errorMessage`, `function` or `query`. */
  datatype AIRequest = AIRequest(kind: RequestKind, context: CodeContext, payload: string)

  // ---------------------------------------------------------------------
  // The preference store

  /** A value in `SharedPreferences`: the service writes strings and booleans. */
  datatype PrefValue = Text(text: string) | Flag(flag: bool)

  type Prefs = map<string, PrefValue>

  /** The string keys hold strings and the boolean keys booleans; Android's
      typed getters would throw on anything else. */
  predicate WellTyped(prefs: Prefs) {
    (KeyApiKey in prefs ==> prefs[KeyApiKey].Text?) &&
    (KeySelectedModel in prefs ==> prefs[KeySelectedModel].Text?) &&
    (KeyContextEnabled in prefs ==> prefs[KeyContextEnabled].Flag?) &&
    (KeyAutoComplete in prefs ==> prefs[KeyAutoComplete].Flag?) &&
    (KeyCodeReview in prefs ==> prefs[KeyCodeReview].Flag?)
  }

  /** `getString(key, default)`. */
  function GetString(prefs: Prefs, key: string, default: Option<string>): (r: Option<string>)
    ensures key !in prefs ==> r == default
    ensures key in prefs && prefs[key].Text? ==> r == Some(prefs[key].text)
  {
    if key in prefs && prefs[key].Text? then Some(prefs[key].text) else default
  }

  /** `getBoolean(key, default)`. */
  function GetBoolean(prefs: Prefs, key: string, default: bool): (r: bool)
    ensures key !in prefs ==> r == default
    ensures key in prefs && prefs[key].Flag? ==> r == prefs[key].flag
  {
    if key in prefs && prefs[key].Flag? then prefs[key].flag else default
  }

  /** `getAPIKey`: absent until a key has been saved. */
  function GetAPIKey(prefs: Prefs): (r: Option<string>)
    ensures KeyApiKey !in prefs ==> r == None
  {
    GetString(prefs, KeyApiKey, None)
  }

  /** `getConfig`: the stored model and flags, with `gemini-1.5-flash` and
      `true` for absent keys; `maxTokens` always has its default. */
  function GetConfig(prefs: Prefs): (c: AIConfig)
    ensures c.maxTokens == DefaultMaxTokens
    ensures KeySelectedModel !in prefs ==> c.model == ModelGeminiFlash
    ensures KeyContextEnabled !in prefs ==> c.contextEnabled
    ensures KeyAutoComplete !in prefs ==> c.autoCompleteEnabled
    ensures KeyCodeReview !in prefs ==> c.codeReviewEnabled
  {
    AIConfig(model := GetString(prefs, KeySelectedModel, Some(ModelGeminiFlash)).GetOr(ModelGeminiFlash),
             contextEnabled := GetBoolean(prefs, KeyContextEnabled, true),
             autoCompleteEnabled := GetBoolean(prefs, KeyAutoComplete, true),
             codeReviewEnabled := GetBoolean(prefs, KeyCodeReview, true))
  }

  /** The store after `saveAPIKey(apiKey)`: the key reads back and the
      configuration is untouched. */
  function PutAPIKey(prefs: Prefs, apiKey: string): (r: Prefs)
    ensures GetAPIKey(r) == Some(apiKey)
    ensures GetConfig(r) == GetConfig(prefs)
    ensures WellTyped(prefs) ==> WellTyped(r)
  {
    prefs[KeyApiKey := Text(apiKey)]
  }

  /** The store after `saveConfig(config)`: the model and the three flags
      read back, `maxTokens` comes back as its default, and the key is
      untouched. */
  function PutConfig(prefs: Prefs, config: AIConfig): (r: Prefs)
    ensures GetConfig(r) == config.(maxTokens := DefaultMaxTokens)
    ensures GetAPIKey(r) == GetAPIKey(prefs)
    ensures WellTyped(prefs) ==> WellTyped(r)
  {
    prefs[KeySelectedModel := Text(config.model)]
         [KeyContextEnabled := Flag(config.contextEnabled)]
         [KeyAutoComplete := Flag(config.autoCompleteEnabled)]
         [KeyCodeReview := Flag(config.codeReviewEnabled)]
  }

  /** A store nothing has been saved to gives no key and the default configuration. */
  lemma FreshStore()
    ensures GetAPIKey(map[]) == None
    ensures GetConfig(map[]) == AIConfig()
  {
  }

  /** The service object: one preference file, edited in place. */
  class GeminiAIService {
    var prefs: Prefs

    predicate Valid()
      reads this
    {
      WellTyped(prefs)
    }

    /** The store as the preference file holds it. */
    constructor(stored: Prefs)
      requires WellTyped(stored)
      ensures prefs == stored && Valid()
    {
      prefs := stored;
    }

    /** `saveAPIKey`. */
    method SaveAPIKey(apiKey: string)
      requires Valid()
      modifies this
      ensures Valid() && prefs == PutAPIKey(old(prefs), apiKey)
      ensures GetAPIKey(prefs) == Some(apiKey) && GetConfig(prefs) == GetConfig(old(prefs))
    {
      prefs := PutAPIKey(prefs, apiKey);
    }

    /** `saveConfig`. */
    method SaveConfig(config: AIConfig)
      requires Valid()
      modifies this
      ensures Valid() && prefs == PutConfig(old(prefs), config)
      ensures GetConfig(prefs) == config.(maxTokens := DefaultMaxTokens)
      ensures GetAPIKey(prefs) == GetAPIKey(old(prefs))
    {
      prefs := PutConfig(prefs, config);
    }
  }

  // ---------------------------------------------------------------------
  // Prompts

  /** `buildSystemPrompt`, one line of the prompt per line here. The text is
      written in short pieces: the verifier pays for long literals. */
  function SystemPrompt(): string {
    "You are an" + " expert Python" + " programming" + " assistant for" + " the Python" + " Pocket IDE" + " mobile" + " application.\n"
    + "\n"
    + "Context:\n"
    + "- This is a" + " mobile Python" + " IDE for" + " educational" + " use\n"
    + "- Target" + " audience: MCA" + " students and" + " Python" + " learners\n"
    + "- Focus on" + " Python 3.11.5" + " compatibility\n"
    + "- Emphasize" + " educational" + " best" + " practices\n"
    + "- Consider" + " mobile device" + " constraints" + " (memory," + " processing)\n"
    + "- Support both" + " beginners and" + " advanced" + " users\n"
    + "\n"
    + "Expertise" + " areas:\n"
    + "- Python" + " programming" + " (all levels)\n"
    + "- Mobile app" + " development\n"
    + "- Educational" + " programming" + " concepts\n"
    + "- Code" + " optimization" + " for mobile" + " devices\n"
    + "- Debugging" + " and error" + " resolution\n"
    + "- Best" + " practices and" + " clean code\n"
    + "\n"
    + "Response" + " style:\n"
    + "- Clear and" + " educational" + " explanations\n"
    + "- Include code" + " examples when" + " helpful\n"
    + "- Suggest" + " multiple" + " approaches" + " when" + " applicable\n"
    + "- Highlight" + " potential" + " issues or" + " improvements\n"
    + "- Use markdown" + " formatting" + " for code" + " blocks"
  }

  /** The instruction that closes every prompt. */
  function ClosingInstruction(): string {
    "Please provide" + " a helpful," + " accurate, and" + " concise" + " response" + " focused on "
    + "Python" + " development" + " for" + " mobile/educational" + " use."
  }

  /** The separator between prompt blocks (a blank line). */
  const BlockBreak := "\n\n"

  /** `buildContextPrompt`: it reads the configuration again and is empty
      when context is switched off; otherwise it lists the file, the line
      and what is in scope, and ends with the selected text in a fence. */
  function BuildContextPrompt(prefs: Prefs, request: AIRequest): (r: string)
    ensures !GetConfig(prefs).contextEnabled ==> r == ""
    ensures GetConfig(prefs).contextEnabled ==>
              StartsWith(r, "Current code context:\n- File: " + request.context.currentFile)
              && EndsWith(r, request.context.selectedText + "\n```")
  {
    var c := request.context;
    if !GetConfig(prefs).contextEnabled then ""
    else
      var head := "Current code context:\n- File: " + c.currentFile;
      var body := "\n- Line: " + IntToString(c.currentLine)
        + "\n- Project type: " + c.projectType
        + "\n- Available imports: " + Join(c.imports, ", ")
        + "\n- Variables in scope: " + Join(c.variables, ", ")
        + "\n- Functions in scope: " + Join(c.functions, ", ")
        + "\n\nSurrounding code:\n```python\n" + c.surroundingCode
        + "\n```\n\nSelected/Focus text:\n```python\n";
      var tail := c.selectedText + "\n```";
      PromptLayout(head, body, tail);
      head + body + tail
  }

  /** The heading of each task block. */
  function TaskTitle(kind: RequestKind): string {
    match kind
    case CodeCompletion => "Code Completion"
    case CodeExplanation => "Code Explanation"
    case CodeReview => "Code Review"
    case BugFix => "Bug Fix Assistance"
    case CodeOptimization => "Code Optimization"
    case GenerateDocstring => "Generate Documentation"
    case CustomQuery => "Custom Query"
  }

  /** The text of a task block between its heading and the payload. */
  function TaskLead(kind: RequestKind): string {
    match kind
    case CodeCompletion =>
      "The user is typing the following code and needs intelligent completion suggestions:\n```python\n"
    case CodeExplanation =>
      "Please explain the following Python code in educational terms:\n```python\n"
    case CodeReview =>
      "Please review the following Python code for best practices, potential issues, and improvements:\n"
      + "```python\n"
    case BugFix =>
      "The user encountered this error:\n```\n"
    case CodeOptimization =>
      "Please optimize the following Python code for better performance, especially considering "
      + "mobile device constraints:\n```python\n"
    case GenerateDocstring =>
      "Please generate comprehensive docstring for this Python function:\n```python\n"
    case CustomQuery =>
      "User question: "
  }

  /** The text of a task block after the payload. */
  function TaskTail(kind: RequestKind): string {
    match kind
    case CodeCompletion =>
      "\n```\n\nPlease provide:\n"
      + "1. Most likely completion(s) for the current line\n"
      + "2. Brief explanation of what the completion does\n"
      + "3. Alternative suggestions if applicable\n\n"
      + "Focus on Python 3.11.5 compatible suggestions that work well on mobile devices."
    case CodeExplanation =>
      "\n```\n\nProvide:\n"
      + "1. Line-by-line explanation for complex parts\n"
      + "2. Overall purpose and functionality\n"
      + "3. Key concepts or patterns used\n"
      + "4. Potential improvements or alternatives\n\n"
      + "Tailor explanation for MCA students learning Python."
    case CodeReview =>
      "\n```\n\nFocus on:\n"
      + "1. Code quality and readability\n"
      + "2. Performance considerations for mobile\n"
      + "3. Python best practices\n"
      + "4. Potential bugs or edge cases\n"
      + "5. Educational value and learning opportunities\n\n"
      + "Provide specific suggestions with examples."
    case BugFix =>
      "\n```\n\nIn the context of their code. Please help by:\n"
      + "1. Explaining what likely caused this error\n"
      + "2. Providing specific fix suggestions\n"
      + "3. Showing corrected code examples\n"
      + "4. Suggesting ways to prevent similar errors\n\n"
      + "Consider mobile Python environment limitations."
    case CodeOptimization =>
      "\n```\n\nFocus on:\n"
      + "1. Memory efficiency\n"
      + "2. Processing speed\n"
      + "3. Battery usage considerations\n"
      + "4. Maintainability\n"
      + "5. Educational clarity\n\n"
      + "Provide optimized version with explanations."
    case GenerateDocstring =>
      "\n```\n\nInclude:\n"
      + "1. Clear description of purpose\n"
      + "2. Parameter descriptions with types\n"
      + "3. Return value description\n"
      + "4. Usage examples\n"
      + "5. Any important notes or warnings\n\n"
      + "Follow Google/NumPy docstring style."
    case CustomQuery =>
      "\n\nPlease provide a helpful response considering:\n"
      + "1. The current code context\n"
      + "2. Python 3.11.5 compatibility\n"
      + "3. Mobile development constraints\n"
      + "4. Educational value for MCA students\n\n"
      + "Be specific and provide code examples when relevant."
  }

  /** `buildTaskPrompt`: one block per request kind, headed by its title and
      holding the request's payload as it was given. */
  function BuildTaskPrompt(request: AIRequest): (r: string)
    ensures StartsWith(r, "Task: " + TaskTitle(request.kind) + "\n\n")
    ensures Contains(r, request.payload)
  {
    var head := "Task: " + TaskTitle(request.kind) + "\n\n";
    var lead := TaskLead(request.kind);
    var tail := TaskTail(request.kind);
    ContainsMiddle(head + lead, request.payload, tail);
    PromptLayout(head + lead, request.payload, tail);
    PrefixOfAppend(head, lead);
    PrefixTrans(head, head + lead, head + lead + request.payload + tail);
    head + lead + request.payload + tail
  }

  /** The context block as `buildPrompt` places it. */
  function ContextBlock(prefs: Prefs, request: AIRequest, config: AIConfig): string {
    if config.contextEnabled then BuildContextPrompt(prefs, request) else ""
  }

  /** The template of `buildPrompt`: the system block, the context block,
      the task block and the closing instruction, a blank line apart. The
      system block opens the prompt, the context block follows it directly,
      and the task block and the closing instruction end it. */
  function AssemblePrompt(system: string, context: string, task: string, closing: string): (r: string)
    ensures |r| == |system| + |context| + |task| + |closing| + 3 * |BlockBreak|
    ensures StartsWith(r, system + BlockBreak)
    ensures r[|system + BlockBreak|..][..|context|] == context
    ensures EndsWith(r, BlockBreak + task + BlockBreak + closing)
  {
    var head := system + BlockBreak;
    var tail := BlockBreak + task + BlockBreak + closing;
    PromptLayout(head, context, tail);
    head + context + tail
  }

  /** `buildPrompt`: the context block is left empty when the configuration
      passed in disables context (and `buildContextPrompt` leaves it empty
      when the stored one does). */
  function BuildPrompt(prefs: Prefs, request: AIRequest, config: AIConfig): string {
    AssemblePrompt(SystemPrompt(), ContextBlock(prefs, request, config), BuildTaskPrompt(request),
                   ClosingInstruction())
  }

  /** The context block of a prompt is empty exactly when context is off,
      with the configuration `processAIRequest` reads from the store. */
  lemma ContextBlockIffEnabled(prefs: Prefs, request: AIRequest)
    ensures ContextBlock(prefs, request, GetConfig(prefs)) == "" <==> !GetConfig(prefs).contextEnabled
  {
    if GetConfig(prefs).contextEnabled {
      var r := BuildContextPrompt(prefs, request);
      assert |r| > 0 by {
        assert StartsWith(r, "Current code context:\n- File: " + request.context.currentFile);
      }
    }
  }

  /** Where the three parts of a prompt sit in it. */
  lemma PromptLayout(head: string, context: string, tail: string)
    ensures StartsWith(head + context + tail, head)
    ensures EndsWith(head + context + tail, tail)
    ensures (head + context + tail)[|head|..][..|context|] == context
  {
    var s := head + context + tail;
    assert s[..|head|] == head;
    assert s[|s| - |tail|..] == tail;
    assert s[|head|..] == context + tail;
  }

  lemma PrefixTrans(a: string, b: string, c: string)
    requires StartsWith(b, a) && StartsWith(c, b)
    ensures StartsWith(c, a)
  {
    assert c[..|a|] == b[..|a|];
  }

  // ---------------------------------------------------------------------
  // The HTTP response

  /** A JSON value as `org.json` exposes it (numbers are integers here). */
  datatype Json =
    | JNull
    | JBool(b: bool)
    | JNumber(n: int)
    | JString(s: string)
    | JArray(items: seq<Json>)
    | JObject(fields: map<string, Json>)

  /** A response body: JSON text, or text `JSONObject(...)` cannot parse. */
  datatype Body = Parsed(json: Json) | Unparsable(detail: string)

  /** The part of an OkHttp `Response` the parser looks at. */
  datatype RawResponse = RawResponse(code: int, message: string, body: Option<Body>)

  /** `Response.isSuccessful`. */
  predicate IsSuccessful(code: int) {
    200 <= code <= 299
  }

  /** A typed `org.json` getter either yields a value or throws `JSONException`. */
  datatype Read<T> = Got(value: T) | Threw(detail: string)

  /** `getJSONObject(key)` on an object. */
  function ObjectField(fields: map<string, Json>, key: string): (r: Read<map<string, Json>>)
    ensures r.Got? <==> key in fields && fields[key].JObject?
    ensures r.Got? ==> r.value == fields[key].fields
  {
    if key !in fields then Threw("No value for " + key)
    else if fields[key].JObject? then Got(fields[key].fields)
    else Threw("Value at " + key + " cannot be converted to JSONObject")
  }

  /** `getJSONArray(key)` on an object. */
  function ArrayField(fields: map<string, Json>, key: string): (r: Read<seq<Json>>)
    ensures r.Got? <==> key in fields && fields[key].JArray?
    ensures r.Got? ==> r.value == fields[key].items
  {
    if key !in fields then Threw("No value for " + key)
    else if fields[key].JArray? then Got(fields[key].items)
    else Threw("Value at " + key + " cannot be converted to JSONArray")
  }

  /** `getString(key)` on an object. */
  function StringField(fields: map<string, Json>, key: string): (r: Read<string>)
    ensures r.Got? <==> key in fields && fields[key].JString?
    ensures r.Got? ==> r.value == fields[key].s
  {
    if key !in fields then Threw("No value for " + key)
    else if fields[key].JString? then Got(fields[key].s)
    else Threw("Value at " + key + " cannot be converted to String")
  }

  /** `getJSONObject(0)` on an array. */
  function FirstObject(items: seq<Json>): (r: Read<map<string, Json>>)
    ensures r.Got? <==> items != [] && items[0].JObject?
    ensures r.Got? ==> r.value == items[0].fields
  {
    if items == [] then Threw("Index 0 out of range [0..0)")
    else if items[0].JObject? then Got(items[0].fields)
    else Threw("Value at 0 cannot be converted to JSONObject")
  }

  const FormatError := "Failed to parse response: "

  /** The `catch` of `parseGeminiResponse`: the exception's message after a fixed prefix. */
  function ParseFailure(detail: string): (r: AIResponse)
    ensures r.Error? && StartsWith(r.message, FormatError)
  {
    PrefixOfAppend(FormatError, detail);
    AIResponse.Error(FormatError + detail)
  }

  /** The `try` block of `parseGeminiResponse`, on a body that was read. */
  function ParseBody(body: Body, matches: Matcher): (r: AIResponse)
    ensures !r.Loading?
  {
    match body
    case Unparsable(detail) => ParseFailure(detail)
    case Parsed(json) =>
      if !json.JObject? then ParseFailure("Value cannot be converted to JSONObject")
      else
        var root := json.fields;
        if "error" in root then
          match ObjectField(root, "error")
          case Threw(d) => ParseFailure(d)
          case Got(error) =>
            match StringField(error, "message")
            case Threw(d) => ParseFailure(d)
            case Got(m) => AIResponse.Error("API Error: " + m)
        else
          match ArrayField(root, "candidates")
          case Threw(d) => ParseFailure(d)
          case Got(candidates) =>
            if |candidates| == 0 then AIResponse.Error("No response generated")
            else
              match FirstObject(candidates)
              case Threw(d) => ParseFailure(d)
              case Got(candidate) =>
                match ObjectField(candidate, "content")
                case Threw(d) => ParseFailure(d)
                case Got(content) =>
                  match ArrayField(content, "parts")
                  case Threw(d) => ParseFailure(d)
                  case Got(parts) =>
                    if |parts| == 0 then AIResponse.Error("Empty content in response")
                    else
                      match FirstObject(parts)
                      case Threw(d) => ParseFailure(d)
                      case Got(part) =>
                        match StringField(part, "text")
                        case Threw(d) => ParseFailure(d)
                        case Got(text) => AIResponse.Success(text, SuggestionsOf(text, matches))
  }

  /** `parseGeminiResponse`: a failed status, a missing body, or the body's
      own decision table. */
  function ParseGeminiResponse(response: RawResponse, matches: Matcher): (r: AIResponse)
    ensures !IsSuccessful(response.code) ==>
              r == AIResponse.Error("API request failed: " + IntToString(response.code) + " " + response.message)
    ensures IsSuccessful(response.code) && response.body == None ==> r == AIResponse.Error("Empty response")
    ensures IsSuccessful(response.code) && response.body.Some? ==> r == ParseBody(response.body.value, matches)
    ensures !r.Loading?
  {
    if !IsSuccessful(response.code) then
      AIResponse.Error("API request failed: " + IntToString(response.code) + " " + response.message)
    else
      match response.body
      case None => AIResponse.Error("Empty response")
      case Some(body) => ParseBody(body, matches)
  }

  /** The message of an `error` object, when it has a text one. */
  function ApiErrorMessage(json: Json): Option<string> {
    if json.JObject? && "error" in json.fields && json.fields["error"].JObject?
       && "message" in json.fields["error"].fields && json.fields["error"].fields["message"].JString?
    then Some(json.fields["error"].fields["message"].s)
    else None
  }

  /** The `candidates` array of a reply without an `error` key. */
  function CandidateList(json: Json): Option<seq<Json>> {
    if json.JObject? && "error" !in json.fields && "candidates" in json.fields
       && json.fields["candidates"].JArray?
    then Some(json.fields["candidates"].items)
    else None
  }

  /** The `parts` array of the first candidate. */
  function PartList(json: Json): Option<seq<Json>> {
    match CandidateList(json)
    case None => None
    case Some(cs) =>
      if cs != [] && cs[0].JObject? && "content" in cs[0].fields && cs[0].fields["content"].JObject?
         && "parts" in cs[0].fields["content"].fields && cs[0].fields["content"].fields["parts"].JArray?
      then Some(cs[0].fields["content"].fields["parts"].items)
      else None
  }

  /** The text of the first part of the first candidate. */
  function ReplyText(json: Json): Option<string> {
    match PartList(json)
    case None => None
    case Some(ps) =>
      if ps != [] && ps[0].JObject? && "text" in ps[0].fields && ps[0].fields["text"].JString?
      then Some(ps[0].fields["text"].s)
      else None
  }

  /** The decision table of a parsed body, row by row, against the shape of
      the JSON: an `error` object comes first, an empty candidate list and an
      empty part list have their own messages, the reply succeeds exactly
      when the first part has a text, and every other shape is a parse
      failure. */
  lemma ParseBodyTable(json: Json, matches: Matcher)
    ensures ApiErrorMessage(json).Some? ==>
              ParseBody(Parsed(json), matches) == AIResponse.Error("API Error: " + ApiErrorMessage(json).value)
    ensures CandidateList(json) == Some([]) ==>
              ParseBody(Parsed(json), matches) == AIResponse.Error("No response generated")
    ensures PartList(json) == Some([]) ==>
              ParseBody(Parsed(json), matches) == AIResponse.Error("Empty content in response")
    ensures ParseBody(Parsed(json), matches).Success? <==> ReplyText(json).Some?
    ensures ReplyText(json).Some? ==>
              ParseBody(Parsed(json), matches)
              == AIResponse.Success(ReplyText(json).value, SuggestionsOf(ReplyText(json).value, matches))
    ensures ApiErrorMessage(json).None? && CandidateList(json) != Some([]) && PartList(json) != Some([])
            && ReplyText(json).None? ==>
              ParseBody(Parsed(json), matches).Error?
              && StartsWith(ParseBody(Parsed(json), matches).message, FormatError)
  {
    if json.JObject? && "error" !in json.fields {
      ParseReplyTable(json.fields, matches);
    } else if json.JObject? {
      ParseErrorTable(json.fields, matches);
    }
  }

  /** The rows of a reply whose root has an `error` key. */
  lemma ParseErrorTable(root: map<string, Json>, matches: Matcher)
    requires "error" in root
    ensures ApiErrorMessage(JObject(root)).Some? ==>
              ParseBody(Parsed(JObject(root)), matches)
              == AIResponse.Error("API Error: " + ApiErrorMessage(JObject(root)).value)
    ensures ApiErrorMessage(JObject(root)).None? ==>
              ParseBody(Parsed(JObject(root)), matches).Error?
              && StartsWith(ParseBody(Parsed(JObject(root)), matches).message, FormatError)
  {
    match ObjectField(root, "error") {
      case Threw(d) =>
      case Got(error) =>
        match StringField(error, "message") {
          case Threw(d) =>
          case Got(m) =>
        }
    }
  }

  /** The rows of a reply whose root has no `error` key. */
  lemma ParseReplyTable(root: map<string, Json>, matches: Matcher)
    requires "error" !in root
    ensures CandidateList(JObject(root)) == Some([]) ==>
              ParseBody(Parsed(JObject(root)), matches) == AIResponse.Error("No response generated")
    ensures PartList(JObject(root)) == Some([]) ==>
              ParseBody(Parsed(JObject(root)), matches) == AIResponse.Error("Empty content in response")
    ensures ReplyText(JObject(root)).Some? ==>
              ParseBody(Parsed(JObject(root)), matches)
              == AIResponse.Success(ReplyText(JObject(root)).value,
                                    SuggestionsOf(ReplyText(JObject(root)).value, matches))
    ensures ReplyText(JObject(root)).None? ==> !ParseBody(Parsed(JObject(root)), matches).Success?
    ensures CandidateList(JObject(root)) != Some([]) && PartList(JObject(root)) != Some([])
            && ReplyText(JObject(root)).None? ==>
              ParseBody(Parsed(JObject(root)), matches).Error?
              && StartsWith(ParseBody(Parsed(JObject(root)), matches).message, FormatError)
  {
    match ArrayField(root, "candidates") {
      case Threw(d) =>
      case Got(candidates) =>
        if |candidates| != 0 {
          match FirstObject(candidates) {
            case Threw(d) =>
            case Got(candidate) =>
              match ObjectField(candidate, "content") {
                case Threw(d) =>
                case Got(content) =>
                  match ArrayField(content, "parts") {
                    case Threw(d) =>
                    case Got(parts) =>
                      if |parts| != 0 {
                        match FirstObject(parts) {
                          case Threw(d) =>
                          case Got(part) =>
                        }
                      }
                  }
              }
          }
        }
    }
  }

  // ---------------------------------------------------------------------
  // Suggestions

  /** The three suggestion patterns, in the order they are tried: numbered
      items, "- " bullets and "* " bullets. */
  datatype Pattern = NumberedItem | DashItem | StarItem

  const SuggestionPatterns: seq<Pattern> := [NumberedItem, DashItem, StarItem]

  /** The regular-expression engine: the first group of every match of a
      pattern in a text, in order. */
  type Matcher = (Pattern, string) -> seq<string>

  /** A trimmed capture that `extractSuggestions` keeps. */
  predicate Acceptable(s: string) {
    !IsBlank(s) && |s| < 200
  }

  /** Text without leading or trailing whitespace: what `trim()` leaves,
      and what it gives back unchanged (`TrimNoOuterSpace`). */
  predicate Trimmed(s: string) {
    s == [] || (!IsWhitespace(s[0]) && !IsWhitespace(s[|s| - 1]))
  }

  /** A capture as it is kept: trimmed, or dropped. */
  function KeptOne(capture: string): (r: seq<string>)
    ensures |r| <= 1
    ensures r == [] <==> !Acceptable(Trim(capture))
    ensures r != [] ==> r == [Trim(capture)] && Acceptable(r[0]) && Trimmed(r[0])
  {
    if Acceptable(Trim(capture)) then [Trim(capture)] else []
  }

  /** The captures of one pattern that survive the filter, trimmed, in order. */
  function Kept(captures: seq<string>): seq<string>
  {
    FlatMap(captures, KeptOne)
  }

  /** Every kept capture is trimmed and acceptable. */
  lemma KeptSound(captures: seq<string>)
    ensures forall i :: 0 <= i < |Kept(captures)| ==> GoodSuggestion(Kept(captures)[i])
  {
    FlatMapAll(captures, KeptOne, GoodSuggestion);
  }

  predicate GoodSuggestion(s: string) {
    Acceptable(s) && Trimmed(s)
  }

  /** Every capture that is acceptable once trimmed is kept. */
  lemma KeptComplete(captures: seq<string>, i: nat)
    requires i < |captures| && Acceptable(Trim(captures[i]))
    ensures Trim(captures[i]) in Kept(captures)
  {
    assert Trim(captures[i]) in KeptOne(captures[i]);
    FlatMapIncludes(captures, KeptOne, i, Trim(captures[i]));
  }

  /** One more capture adds what it keeps. */
  lemma KeptStep(captures: seq<string>, j: nat)
    requires j < |captures|
    ensures Kept(captures[..j + 1]) == Kept(captures[..j]) + KeptOne(captures[j])
  {
    assert captures[..j + 1] == captures[..j] + [captures[j]];
    FlatMapAppend(captures[..j], [captures[j]], KeptOne);
    assert [captures[j]][1..] == [];
  }

  /** The kept captures of every pattern, pattern after pattern. */
  function Collected(patterns: seq<Pattern>, text: string, matches: Matcher): seq<string>
  {
    if patterns == [] then [] else Kept(matches(patterns[0], text)) + Collected(patterns[1..], text, matches)
  }

  /** Every collected capture is trimmed and acceptable. */
  lemma {:induction false} CollectedSound(patterns: seq<Pattern>, text: string, matches: Matcher)
    ensures forall i :: 0 <= i < |Collected(patterns, text, matches)| ==>
              GoodSuggestion(Collected(patterns, text, matches)[i])
  {
    if patterns != [] {
      KeptSound(matches(patterns[0], text));
      CollectedSound(patterns[1..], text, matches);
    }
  }

  /** One more pattern adds what its captures keep. */
  lemma CollectedStep(patterns: seq<Pattern>, i: nat, text: string, matches: Matcher)
    requires i < |patterns|
    ensures Collected(patterns[..i + 1], text, matches)
            == Collected(patterns[..i], text, matches) + Kept(matches(patterns[i], text))
  {
    assert patterns[..i + 1] == patterns[..i] + [patterns[i]];
    CollectedSnoc(patterns[..i], patterns[i], text, matches);
  }

  lemma {:induction false} CollectedSnoc(patterns: seq<Pattern>, p: Pattern, text: string, matches: Matcher)
    ensures Collected(patterns + [p], text, matches) == Collected(patterns, text, matches) + Kept(matches(p, text))
  {
    if patterns == [] {
      assert patterns + [p] == [p];
    } else {
      assert (patterns + [p])[0] == patterns[0];
      assert (patterns + [p])[1..] == patterns[1..] + [p];
      CollectedSnoc(patterns[1..], p, text, matches);
    }
  }

  /** What `extractSuggestions` returns: the first five kept captures. */
  function SuggestionsOf(text: string, matches: Matcher): (r: seq<string>)
    ensures |r| <= 5
    ensures r <= Collected(SuggestionPatterns, text, matches)
    ensures |r| == 5 || r == Collected(SuggestionPatterns, text, matches)
    ensures forall i :: 0 <= i < |r| ==> !IsBlank(r[i]) && |r[i]| < 200 && Trimmed(r[i])
  {
    CollectedSound(SuggestionPatterns, text, matches);
    Take(Collected(SuggestionPatterns, text, matches), 5)
  }

  /** `extractSuggestions`: the captures of each pattern in turn are trimmed,
      the blank and the long ones dropped, and the first five kept. */
  method ExtractSuggestions(text: string, matches: Matcher) returns (r: seq<string>)
    ensures r == SuggestionsOf(text, matches)
  {
    var suggestions: seq<string> := [];
    for i := 0 to |SuggestionPatterns|
      invariant suggestions == Collected(SuggestionPatterns[..i], text, matches)
    {
      var pattern := SuggestionPatterns[i];
      var found := matches(pattern, text);
      for j := 0 to |found|
        invariant suggestions == Collected(SuggestionPatterns[..i], text, matches) + Kept(found[..j])
      {
        var suggestion := Trim(found[j]);
        KeptStep(found, j);
        if !IsBlank(suggestion) && |suggestion| < 200 {
          suggestions := suggestions + [suggestion];
        }
      }
      assert found[..|found|] == found;
      CollectedStep(SuggestionPatterns, i, text, matches);
    }
    assert SuggestionPatterns[..|SuggestionPatterns|] == SuggestionPatterns;
    r := Take(suggestions, 5);
  }

  // ---------------------------------------------------------------------
  // Requests

  /** What `makeGeminiRequest` posts: the endpoint, with model and key in
      it, the prompt and the output-token limit. */
  datatype Outgoing = Outgoing(url: string, prompt: string, maxOutputTokens: int)

  /** The outcome of the HTTP call: a response, or an exception's message. */
  datatype Exchange = Responded(response: RawResponse) | Failed(detail: string)

  type Transport = Outgoing -> Exchange

  /** Where the models of the generative language API are served. */
  const ApiBase := "https://" + "generative" + "language." + "googleapis" + ".com/v1beta" + "/models/"

  /** The `generateContent` endpoint of a model. */
  function Endpoint(model: string, apiKey: string): (r: string)
    ensures StartsWith(r, ApiBase + model + ":")
    ensures EndsWith(r, "?key=" + apiKey)
  {
    var head := ApiBase + model + ":";
    var tail := "?key=" + apiKey;
    PrefixOfAppend(head, "generateContent" + tail);
    SuffixOfAppend(head + "generateContent", tail);
    assert head + "generateContent" + tail == head + ("generateContent" + tail);
    head + "generateContent" + tail
  }

  const KeyMissing := "API key not configured. Please set your Gemini API key in settings."

  /** Kotlin `isNullOrBlank()` on the stored key. */
  predicate KeyUnusable(apiKey: Option<string>) {
    apiKey.None? || IsBlank(apiKey.value)
  }

  /** The request `processAIRequest` sends for a usable key. */
  function Planned(prefs: Prefs, request: AIRequest): (out: Outgoing)
    requires !KeyUnusable(GetAPIKey(prefs))
    ensures EndsWith(out.url, "?key=" + GetAPIKey(prefs).value)
    ensures out.prompt == BuildPrompt(prefs, request, GetConfig(prefs))
    ensures out.maxOutputTokens == DefaultMaxTokens
  {
    var config := GetConfig(prefs);
    Outgoing(Endpoint(config.model, GetAPIKey(prefs).value), BuildPrompt(prefs, request, config), config.maxTokens)
  }

  /** The exchange of `processAIRequest` once the request is planned: a
      failed call becomes an error, an answer is parsed. */
  function Dispatch(out: Outgoing, send: Transport, matches: Matcher): (r: AIResponse)
    ensures send(out).Failed? ==> r == AIResponse.Error("AI request failed: " + send(out).detail)
    ensures send(out).Responded? ==> r == ParseGeminiResponse(send(out).response, matches)
    ensures !r.Loading?
  {
    match send(out)
    case Failed(detail) => AIResponse.Error("AI request failed: " + detail)
    case Responded(response) => ParseGeminiResponse(response, matches)
  }

  /** `processAIRequest`: without a usable key it answers at once and sends
      nothing; otherwise it sends the planned request. */
  function ProcessAIRequest(prefs: Prefs, request: AIRequest, send: Transport, matches: Matcher): (r: AIResponse)
    ensures KeyUnusable(GetAPIKey(prefs)) ==> r == AIResponse.Error(KeyMissing)
    ensures !KeyUnusable(GetAPIKey(prefs)) ==> r == Dispatch(Planned(prefs, request), send, matches)
    ensures !r.Loading?
  {
    if KeyUnusable(GetAPIKey(prefs)) then AIResponse.Error(KeyMissing)
    else Dispatch(Planned(prefs, request), send, matches)
  }

  /** Without a usable key the transport is never consulted: any two
      transports give the same answer. */
  lemma KeyGuardSendsNothing(prefs: Prefs, request: AIRequest, send1: Transport, send2: Transport,
                             matches: Matcher)
    requires KeyUnusable(GetAPIKey(prefs))
    ensures ProcessAIRequest(prefs, request, send1, matches) == ProcessAIRequest(prefs, request, send2, matches)
  {
  }

  /** `getQuickCompletion`: nothing when auto-completion is off or the answer
      is not a success; `take` with a negative count throws, and the
      exception is caught; otherwise the first `maxSuggestions` suggestions. */
  function GetQuickCompletion(prefs: Prefs, context: CodeContext, partialCode: string, maxSuggestions: int,
                              send: Transport, matches: Matcher): (r: seq<string>)
    ensures !GetConfig(prefs).autoCompleteEnabled ==> r == []
    ensures maxSuggestions < 0 ==> r == []
    ensures !ProcessAIRequest(prefs, AIRequest(CodeCompletion, context, partialCode), send, matches).Success? ==> r == []
    ensures GetConfig(prefs).autoCompleteEnabled && maxSuggestions >= 0
            && ProcessAIRequest(prefs, AIRequest(CodeCompletion, context, partialCode), send, matches).Success? ==>
              r == Take(ProcessAIRequest(prefs, AIRequest(CodeCompletion, context, partialCode), send, matches)
                          .suggestions, maxSuggestions)
    ensures |r| <= maxSuggestions || r == []
  {
    if !GetConfig(prefs).autoCompleteEnabled then []
    else
      match ProcessAIRequest(prefs, AIRequest(CodeCompletion, context, partialCode), send, matches)
      case Success(_, suggestions) => if maxSuggestions < 0 then [] else Take(suggestions, maxSuggestions)
      case _ => []
  }

  /** Quick completions come from the reply's suggestions, so there are at most five. */
  lemma QuickCompletionBounded(prefs: Prefs, context: CodeContext, partialCode: string, maxSuggestions: int,
                               send: Transport, matches: Matcher)
    ensures |GetQuickCompletion(prefs, context, partialCode, maxSuggestions, send, matches)| <= 5
  {
    ProcessSuggestionsBounded(prefs, AIRequest(CodeCompletion, context, partialCode), send, matches);
  }

  /** An answer of `processAIRequest` carries at most five suggestions. */
  lemma ProcessSuggestionsBounded(prefs: Prefs, request: AIRequest, send: Transport, matches: Matcher)
    ensures ProcessAIRequest(prefs, request, send, matches).Success? ==>
              |ProcessAIRequest(prefs, request, send, matches).suggestions| <= 5
  {
    if !KeyUnusable(GetAPIKey(prefs)) {
      DispatchSuggestionsBounded(Planned(prefs, request), send, matches);
    }
  }

  /** So does any answer of `Dispatch`. */
  lemma DispatchSuggestionsBounded(out: Outgoing, send: Transport, matches: Matcher)
    ensures Dispatch(out, send, matches).Success? ==> |Dispatch(out, send, matches).suggestions| <= 5
  {
    if send(out).Responded? {
      ResponseSuggestionsBounded(send(out).response, matches);
    }
  }

  /** A parsed HTTP answer carries at most five suggestions. */
  lemma ResponseSuggestionsBounded(response: RawResponse, matches: Matcher)
    ensures ParseGeminiResponse(response, matches).Success? ==>
              |ParseGeminiResponse(response, matches).suggestions| <= 5
  {
    if IsSuccessful(response.code) && response.body.Some? && response.body.value.Parsed? {
      SuccessSuggestionsBounded(response.body.value.json, matches);
    }
  }

  /** A successful parse carries at most five suggestions. */
  lemma SuccessSuggestionsBounded(json: Json, matches: Matcher)
    ensures ParseBody(Parsed(json), matches).Success? ==> |ParseBody(Parsed(json), matches).suggestions| <= 5
  {
    ParseBodyTable(json, matches);
  }
}
